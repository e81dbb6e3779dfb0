# data-pipe: a verified model of the pipeline core

This project models in Dafny the control logic of data-pipe, a Kafka-driven
frame processing service written in Go. Each cycle of a pipeline does the following:

1. It fetches a message from a queue reader.
2. It decodes the message into an `InputFrame` (protobuf).
3. It hands the frame to a processor. The processor retrieves the frame's bytes from an object store, converts them, stores the converted blob under `converted_<frameId>.blob`, and describes the result as a `ConvertedBlob`.
4. It encodes that description and writes it to a queue writer, keyed by the frame id.
5. It commits the fetched message.
6. It resets the exponential backoff sleeper that paces its retries.

Fetch, write and commit each get three attempts, with a sleep between
failures. A frame that cannot be decoded, processed or encoded is dropped.

Modules, one per Go file plus shared records:

- `Wrappers`, `Errors`, `Api`: Option/Result, the error values, the protobuf
  records and the queue message.
- `Converter` (internal/processor/converter.go): the identity converter.
- `Processor` (internal/processor/processor.go):
  - `NewProcessor`.
  - `Process`, a method over a `Storage` class. The class is an in-memory object store with injectable faults.
  - `ProcessSpec`, the function `Process` is proved against. Lemmas give its failure, idempotence and naming properties.
- `Stream` (internal/stream/factory.go): `createBalancer`.
- `Sleeper` (internal/sleeper/sleeper.go):
  - the `ExponentialBackoffSleeper` class. Its `int64` delay doubles by wrap-around addition.
  - the pure state `SleeperState`, its invariant `Consistent`, and the closed form of the backoff.
- `Pipeline` (internal/pipeline/pipeline.go):
  - `NewPipeline`, and the `Pipeline` class whose `Run` method is the retry loop.
  - Each block of `Run` is a method of its own: `FetchAndHandle`, `Pause`, `WriteWithRetry`, `CommitWithRetry`, `CommitAndReset`, `DeliverMessage`, `HandleFetched`.
  - Each of those is proved against the specification functions `Envelope`, `Settle`, `Deliver`, `HandleMessage` and `RunFrom`/`RunAfterFetch`.
  - The sleeper's state after a run is tied to the returned calls by `Replay`, which performs their sleeps and resets in order on a `SleeperState`.
  - The reader, writer and processor are scripted: a `Script` answers its i-th call with its i-th answer.
  - The protobuf codec is a pair of partial functions.
  - Cancellation is a script of answers to the loop-top check. A used-up script counts as cancelled.
  - `Run` also returns its calls, with their answers, in order.
- `PipelineProtocol`: an automaton that reads the calls one at a time. It is an independent statement of the order the loop promises. `RunFollowsProtocol` proves every run obeys it.
- `PipelineScenarios`: whole runs for the situations of
  internal/pipeline/pipeline_test.go. Each gives the exact calls, the result
  and the sleeper's count.

## Model

| member | source | states |
|---|---|---|
| Converter.Identity | internal/processor/converter.go:11-13 | Convert returns its input unchanged and never fails |
| Converter.NewConverter | internal/processor/converter.go:7-9 | NewConverter always succeeds, with a converter that maps every input to itself |
| Stream.CreateBalancer | internal/stream/factory.go:86-112 | each of roundrobin, hash, crc32 and murmur2 is chosen by exactly its own name; LeastBytes is chosen by "leastbytes" and by every other name; the mapping is total |
| Stream.BalancerName | internal/stream/factory.go:89-107 | every balancer has a recognised configuration name |
| Stream.SelectByName | internal/stream/factory.go:86-112 | every balancer is selected by its own name (BalancerName is a right inverse of CreateBalancer) |
| Stream.SelectionIsCaseSensitive | internal/stream/factory.go:109-110 | "RoundRobin", "HASH" and "" fall back to LeastBytes |
| Processor.NewProcessor | internal/processor/processor.go:70-90 | a missing converter gives ErrNoConverterProvided and is checked before the storage; with the converter present, a missing storage gives ErrNoStorageProvided; otherwise a processor holding the given config, converter and storage |
| Processor.BlobObjectName | internal/processor/processor.go:135-137 | the name is "converted_", then the frame id, then ".blob", and the frame id can be read back from it |
| Processor.BlobObjectNameInjective | internal/processor/processor.go:135-137 | two frame ids give the same blob name if and only if they are equal |
| Processor.Storage.Retrieve | internal/processor/processor.go:53 | answers with the configured fault, else the stored bytes, else NoSuchObject; changes no object, logs the call |
| Processor.Storage.Store | internal/processor/processor.go:52 | answers with the configured fault and changes no object, or writes exactly the given object under the given key; logs the call |
| Processor.ProcessSpec | internal/processor/processor.go:95-133 | on success: frame id and frame location copied from the input, converted location in the destination bucket under the blob name, and exactly the destination object changed, to the converted bytes with the blob content type; on failure: no object changed; the store's faults never change |
| Processor.Process | internal/processor/processor.go:95-133 | the result and the store's new state are those ProcessSpec gives for the old state |
| Processor.RetrieveFailureStops | internal/processor/processor.go:102-106 | a failed retrieve is returned unchanged, and the only storage call is that retrieve (nothing converted, nothing stored) |
| Processor.ConvertFailureStops | internal/processor/processor.go:108-112 | a failed conversion is returned unchanged, and store is never called |
| Processor.StoreAttemptedOnce | internal/processor/processor.go:114-118 | after a successful retrieve and conversion, exactly one store of the converted bytes, with content type application/octet-stream, under the destination bucket and the blob name; its error is returned unchanged, and without one the result is a success |
| Processor.ReprocessingIsIdempotent | internal/processor/processor.go:114-131 | processing a frame again after a success leaves the same objects and returns the same result |
| Processor.DistinctFramesDistinctDestinations | internal/processor/processor.go:114-115 | frames with different ids never share a destination object |
| Processor.IdentityStoresRetrievedBytes | internal/processor/converter.go:11-13 | with the default converter, processing stores exactly the retrieved bytes at the destination, and fails exactly when the store fails |
| Sleeper.Wrap64 | internal/sleeper/sleeper.go:24 | int64 wrap-around is the identity on values already in the int64 range |
| Sleeper.WrapDouble | internal/sleeper/sleeper.go:24 | doubling a wrapped value and wrapping again equals wrapping the exact double |
| Sleeper.BackoffClosedForm | internal/sleeper/sleeper.go:22-25 | after n doublings the delay is initial * 2^n wrapped once into int64 |
| Sleeper.ScheduleDoubles | internal/sleeper/sleeper.go:22-25 | while in the int64 range, the delays waited for after a reset are initial, 2*initial, 4*initial, ...: each is twice the one before and the i-th is initial * 2^i |
| Sleeper.BackoffWrapsToZero | internal/sleeper/sleeper.go:24 | there is no cap: after 64 or more doublings the delay is 0 |
| Sleeper.SleepKeepsConsistent | internal/sleeper/sleeper.go:22-25 | a sleep keeps the invariant (delay = backoff after the sleeps since reset, waits since reset follow the schedule) and waits for the scheduled delay |
| Sleeper.Slept | internal/sleeper/sleeper.go:22-25 | j sleeps in a row raise the count of sleeps since reset by j |
| Sleeper.SleptShift | internal/sleeper/sleeper.go:22-25 | a sleep followed by j more is j + 1 sleeps |
| Sleeper.SleptKeepsConsistent | internal/sleeper/sleeper.go:22-25 | any run of sleeps keeps the sleeper's invariant |
| Sleeper.ResetKeepsConsistent | internal/sleeper/sleeper.go:28-30 | a reset from any state, consistent or not, restores the invariant with the delay back at initial |
| Sleeper.ResetIdempotent | internal/sleeper/sleeper.go:28-30 | a second reset changes nothing, and a reset waits for nothing |
| Sleeper.ExponentialBackoffSleeper.constructor | internal/sleeper/sleeper.go:14-19 | construction never fails; the delay is the initial one, nothing has been waited for, and the invariant holds |
| Sleeper.ExponentialBackoffSleeper.Sleep | internal/sleeper/sleeper.go:22-25 | records a wait for the current delay, then adds the delay to itself in int64; `initial` is a constant field; a consistent sleeper stays consistent |
| Sleeper.ExponentialBackoffSleeper.Reset | internal/sleeper/sleeper.go:28-30 | sets the delay back to initial and clears the count of sleeps since reset; nothing waited for is forgotten; the sleeper is consistent afterwards |
| Pipeline.MissingDependency | internal/pipeline/pipeline.go:118-136 | no error if and only if all five dependencies are present; otherwise the error of the first missing one in the order reader, writer, processor, sleeper, reporter (both directions for each error) |
| Pipeline.NewPipeline | internal/pipeline/pipeline.go:110-149 | returns nil with MissingDependency's error, or a fresh pipeline holding the given collaborators and id and no error |
| Pipeline.Pipeline.constructor | internal/pipeline/pipeline.go:138-148 | the pipeline keeps the collaborators it was given |
| Pipeline.Envelope | internal/pipeline/pipeline.go:217-255 | a retry envelope makes at least one call, and no more than its budget of three allows |
| Pipeline.EnvelopeRecovers | internal/pipeline/pipeline.go:219-234 | failures within the budget followed by a success: the envelope succeeds, right after that success |
| Pipeline.EnvelopeGivesUp | internal/pipeline/pipeline.go:219-233 | an envelope gives up if and only if every answer its remaining budget allows fails; it then stops at the budget and reports the last failure |
| Pipeline.EnvelopeAdvance | internal/pipeline/pipeline.go:219-233 | one attempt of an envelope: success ends it, the failure at the budget gives up with that error, any other failure is followed by a sleep and the rest of the envelope |
| Pipeline.Pipeline.WriteWithRetry | internal/pipeline/pipeline.go:217-235 | the write loop makes exactly the calls of the write Envelope; the sleeper sleeps once per failed write that is not the last and does nothing else (its delay, count and waits are those of that many sleeps), so a consistent sleeper stays consistent |
| Pipeline.Pipeline.CommitWithRetry | internal/pipeline/pipeline.go:237-255 | the commit loop makes exactly the calls of the commit Envelope for the fetched message, and the sleeper sleeps likewise and keeps its invariant |
| Pipeline.Pipeline.CommitAndReset | internal/pipeline/pipeline.go:237-257 | the commit envelope, then the reset exactly when the commit succeeded (as the Settle function states); the sleeper ends in the state its sleeps and reset give, and keeps its invariant |
| Pipeline.Pipeline.DeliverMessage | internal/pipeline/pipeline.go:217-257 | write with retries, then commit with retries, then reset the backoff; either envelope giving up is fatal (as the Deliver function states); the sleeper ends in the state that performing the sleeps and resets among its calls gives, and keeps its invariant |
| Pipeline.Pipeline.HandleFetched | internal/pipeline/pipeline.go:189-257 | decode, process and encode, where any failure drops the message; then deliver. A fatal end is the whole rest of the run; otherwise the run continues from the loop top with a fresh fetch budget. The sleeper ends in the state its calls' sleeps and resets give, and keeps its invariant |
| Pipeline.Pipeline.Pause | internal/pipeline/pipeline.go:185 | the sleep after a failed fetch: one Sleep call, recorded as the next call, with the sleeper one sleep further and its invariant kept |
| Pipeline.Pipeline.FetchAndHandle | internal/pipeline/pipeline.go:173-257 | one pass of the loop after the cancellation check: either the run ends here with the error, as RunFrom says, or it goes on from a later cursor with a fetch budget still open, RunFrom being these calls followed by the rest; the sleeper follows its calls and keeps its invariant |
| Pipeline.Pipeline.Run | internal/pipeline/pipeline.go:159-259 | the returned error (nil on cancellation), the calls made and the sleeper's count are exactly those of RunFrom from the start; the sleeper's delay, count and waits are those that performing the returned calls' sleeps and resets in order gives, and a consistent sleeper stays consistent |
| Pipeline.FetchSleeps | internal/pipeline/pipeline.go:174-187 | a fetch leaves the sleeper's count alone, and the sleep after a failed fetch adds one |
| Pipeline.EnvelopeSleeps | internal/pipeline/pipeline.go:217-255 | an envelope's calls raise the sleeper's count by one for each call after the first (a sleep between consecutive attempts, never a reset) |
| Pipeline.SettleSleeps | internal/pipeline/pipeline.go:237-257 | the sleeper count Settle reports is the count its calls leave behind |
| Pipeline.DeliverSleeps | internal/pipeline/pipeline.go:217-257 | the sleeper count Deliver reports is the count its calls leave behind |
| Pipeline.HandleMessageSleeps | internal/pipeline/pipeline.go:192-257 | the sleeper count HandleMessage reports is the count its calls leave behind |
| Pipeline.ReplayCountsSleeps | internal/sleeper/sleeper.go:22-30 | performing calls on a sleeper leaves the count of sleeps since the last reset that the trace shows, and forgets no wait |
| Pipeline.ReplayKeepsConsistent | internal/sleeper/sleeper.go:22-30 | performing any calls on a consistent sleeper leaves it consistent |
| Pipeline.EnvelopeReplay | internal/pipeline/pipeline.go:217-255 | performing an envelope's calls on the sleeper is exactly one sleep per call after the first, with no reset |
| Pipeline.RunBackoffCountsSleeps | internal/pipeline/pipeline.go:159-259 | the sleeper's count at the end of a run is the sleeps since the last reset in its calls, counted from the trace |
| Pipeline.AfterFetchCountsSleeps | internal/pipeline/pipeline.go:189-259 | the same from a successful fetch on |
| PipelineProtocol.FetchConforms | internal/pipeline/pipeline.go:173-189 | at the loop top, a fetched message moves on to its handling; a failed fetch within budget must be followed by a sleep back to the top with one more failure; the failure at the budget gives up |
| PipelineProtocol.EnvelopeConforms | internal/pipeline/pipeline.go:217-255 | a write envelope ends ready to commit or given up with its error; a commit envelope (of the fetched message only) ends ready to reset or given up |
| PipelineProtocol.DeliverConforms | internal/pipeline/pipeline.go:212-257 | write, commit and reset follow the protocol and end back at the loop top, or given up with the fatal error |
| PipelineProtocol.HandleConforms | internal/pipeline/pipeline.go:192-257 | a processed frame is the one the message decodes to; the message written is keyed by the blob's frame id and carries its encoding; the message committed is the fetched one, only after a successful write; the reset comes only after a successful commit; a drop returns to the loop top |
| PipelineProtocol.RunConforms | internal/pipeline/pipeline.go:159-259 | every run from the loop top follows the protocol; a nil return happens only at the loop top, and an error return only after giving up with that error |
| PipelineProtocol.AfterFetchConforms | internal/pipeline/pipeline.go:189-259 | the same from a successful fetch on |
| PipelineProtocol.RunFollowsProtocol | internal/pipeline/pipeline.go:159-259 | every run of Run from its start follows the protocol |
| PipelineScenarios.CancelledBeforeStart | internal/pipeline/pipeline.go:165-168 | cancelled before the start: nil, no call at all, the sleeper untouched |
| PipelineScenarios.FetchBudgetFrom | internal/pipeline/pipeline.go:175-187 | from a fresh budget, three failing fetches end the run with the fetch error after two sleeps |
| PipelineScenarios.FetchBudgetExhausted | internal/pipeline/pipeline.go:175-187 | every fetch fails: the fetch error after exactly 3 fetches and 2 sleeps, no process, write or commit |
| PipelineScenarios.CancelDuringFailingFetch | internal/pipeline/pipeline.go:163-189 | cancelled during a failing fetch: one fetch, one sleep, then nil; no write or commit |
| PipelineScenarios.CycleThenCancel | internal/pipeline/pipeline.go:212-257 | one full cycle then cancellation: exactly one fetch, process, write of the encoded blob, commit of the fetched message and reset, no sleep, then nil |
| PipelineScenarios.WriteBudgetExhausted | internal/pipeline/pipeline.go:217-235 | every write fails: the write error after 1 fetch, 3 writes and 2 sleeps, and no commit |
| PipelineScenarios.CommitBudgetExhausted | internal/pipeline/pipeline.go:237-255 | every commit fails: the commit error after 1 fetch, 1 write, 3 commits of the fetched message and 2 sleeps, and no reset |
| PipelineScenarios.DropSkipsDelivery | internal/pipeline/pipeline.go:189-210 | a message that fails decode, processing or encoding is dropped: the run continues at the next fetch with a fresh fetch budget and the same sleeper count, with no write, commit, sleep or reset and the writer and committer untouched |
| PipelineScenarios.FetchSuccessRestartsBudget | internal/pipeline/pipeline.go:163-196 | two failed fetches, a dropped message, then failures: the run gives up only at the third failure after the drop (6 fetches, 4 sleeps, no reset) |

## Left out

- The pipeline id generator (the `init` goroutine feeding `uniqueIds`) is
  concurrency plus randomness. The id is an ordinary parameter of `NewPipeline`.
- Logging throughout. The `log` parameter of `NewPipeline` and `NewProcessor`
  is not modelled.
- The reporter is kept as a dependency that `NewPipeline` checks. `Run` never
  calls it, so there is no metrics behaviour to model.
- The wait in `time.Sleep` is a real-time effect. The sleeper records each
  requested duration in the ghost sequence `waits` instead.
- Protobuf `Unmarshal`/`Marshal` are generated code that is not part of this
  model. They are the abstract partial functions of `Codec`.
- The kafka message key is `[]byte(FrameId)`. The model keeps the key as the
  frame id string, with no UTF-8 encoding.
- `context.Context` is modelled as a scripted answer to each loop-top check,
  not as a concurrency mechanism. A used-up script counts as cancelled, so a
  run of the model is a finite prefix of a possibly endless Go run.
- A cancellation raised inside a collaborator call is modelled only through
  the next loop-top check. The scripted collaborators do not see the context.
- `Process` dereferences `frame.FrameLocation`, which the Go code never checks
  for nil. In the model the location is always present, so that panic is not
  represented.
- The processor's `ConvertedLocation.Kind` is never set by the Go code, so it
  is the protobuf zero value. The model writes `Unspecified`.
- The MinIO storage client, `NewReader`, `NewWriter`, `createTopic` and the
  command-line entry point are not part of this model. They are network I/O
  and wiring.
- Pipeline.Pipeline.Run: the Go loop body is one function. The model splits
  it into the methods `FetchAndHandle`, `Pause`, `WriteWithRetry`,
  `CommitWithRetry`, `CommitAndReset`, `DeliverMessage` and `HandleFetched`,
  along the blocks of that body.
- The scenario lemmas state the exact sequence of calls rather than separate
  counters. Each count the Go tests check (fetches, writes, commits, sleeps,
  resets) is the number of such calls in that sequence.
