# save-to-mongo: a verified model of the `SaveToMongo` sink

`SaveToMongo` (lib/index.js) is a Node writable stream in object mode. It persists
every record it receives to a MongoDB collection. The sink works like this:

- It checks its `bulk` option when it is constructed; bad options throw.
- It connects lazily on the first write. Before connecting it checks `uri`,
  `collection` and `connection`, and a failed check is emitted as an `'error'` event.
- Without `bulk`, every record is one `insert`. A failed insert is reported as
  `'write-error'` and the stream goes on.
- With `bulk`, records are queued on a driver bulk object. Whenever the incremented
  `opCounter` is a multiple of `bufferSize`, the group is executed in its ordered or
  unordered mode. A failed execute is reported as `'execute-error'`. Then the counter is
  reset and a fresh group is installed, and only after that is the write acknowledged.
- On `'finish'` it executes the remaining group if the counter is non-zero, closes the
  database and emits `'done'`.

The model is a Dafny class, `Sink.SaveToMongo`. Five of its fields stand for the
JavaScript object's state: `options`, `bulk`, `opCounter`, `_bulkCollection`, and whether
`_db` is set. The other four are the model's own state:

- `stalled`: an `'error'` was emitted on the first write;
- `finished`: the finish handler has run;
- `log`: what the sink did to the outside world;
- the ghost `received`: the records acknowledged so far.

The log, `log: seq<Event>`, holds:

- the driver calls it makes: `Connect`, `Insert`, `Flush(mode, group)` and `Close`;
- the events it emits: `Error`, `WriteError`, `ExecuteError` and `Done`.

The store's answer to an insert or an execute is a parameter, `DriverReply`, so each
callback runs as one synchronous step.

The modules are:

- `Js`: JavaScript values, with `typeof`, truthiness, property lookup and `||`. The
  option checks are stated in these terms.
- `Options`: the constructor's `bulk` checks and the `connect` option checks, as pure
  functions with their exact error conditions and messages.
- `Batching`: flattening groups; `Chunks`, the reference split of a sequence into groups
  of the buffer size; the arithmetic of the modulo boundary.
- `Trace`: records, log events, and the records and groups a log contains.
- `SinkState`: the sink's invariant on values, the log entries one write and the finish
  handler add, and the proofs that every write keeps the invariant and that finishing
  leaves the promised trace.
- `Sink`: the class, whose methods are proved against `SinkState`.
- `Scenarios`: small versions of the repository's tests, run on the class. They cover
  a missing `uri`, a duplicate-key insert that does not stop the stream (with two
  records), and an ordered bulk stream of three records with a buffer of two, which
  also reaches the final execute of a partial group.

The invariant `Valid()` holds between writes. After the connection in bulk mode it says:

- every executed group was full and tagged with the configured mode;
- `opCounter` equals the number of queued records and is below `bufferSize`;
- the executed groups followed by the queued records are the acknowledged records, in
  arrival order.

`Finish` ensures `Drained`. In bulk mode this means:

- the executed groups are exactly `Chunks(received, bufferSize)`;
- there are `N / B` of them plus one if `N % B > 0`;
- all but the last hold `B` records;
- together they are the input in order;
- close comes immediately before `'done'`, and each appears exactly once.

In direct mode it means every record was inserted once, in order, and nothing was
executed.

The bulk group is obtained on the first bulk write (lib/index.js:226-227), not by the
constructor. The finish handler's execute resets only `opCounter` (lib/index.js:211), so
the executed bulk object stays in `_bulkCollection`. `Sink.SaveToMongo.Finish` states
this: `bulkCollection` is unchanged and the counter is 0.

## Model

| member | source | states |
|---|---|---|
| Options.ValidateOptions | lib/index.js:20-43 | Construction succeeds exactly when `opts.bulk` is falsy, or is an object with mode "ordered"/"unordered" and a buffer size that is falsy or a positive number. A non-object bulk gives the `TypeError`. The other checks follow in source order. On success the options are `opts \|\| {}`, bulk is present exactly when `opts.bulk` is truthy, the mode tag matches the string, and the buffer size is the given one or 1000 when falsy. |
| Options.ZeroBufferSizeIsDefaulted | lib/index.js:34-43 | `bufferSize: 0` is falsy, passes the check and becomes 1000. |
| Options.CheckConnectOptions | lib/index.js:87-103 | The connection checks pass exactly when `uri` and `collection` are strings and `connection` is falsy or an object. The first failing check, in the order uri, collection, connection, names the error. On success the driver receives the uri, the collection name and `connection \|\| {}`. |
| Batching.ModuloBoundary | lib/index.js:168 | For a counter in 1..bufferSize, the test `counter % bufferSize == 0` holds exactly when the counter equals the buffer size. |
| Batching.DecompositionIsChunks | lib/index.js:168-186 | Full groups of the buffer size followed by a shorter remainder are exactly the reference split of their concatenation. |
| Batching.ChunksShape | lib/index.js:168-186 | The reference split concatenates back to the input, and every group but the last is full. |
| Batching.ChunksCount | lib/index.js:53-68 | The reference split of N records into groups of B has N / B + (N % B > 0 ? 1 : 0) groups. |
| Trace.BulkExecuteEntries | lib/index.js:200-213 | An execute contributes its group to the executed groups and no single insert, whether or not it failed. |
| Trace.SingleInsertEntries | lib/index.js:247-258 | A single insert contributes exactly its record, whether or not it failed. |
| SinkState.ConnectedStart | lib/index.js:40-41 | Right after the connection, the invariant holds with nothing sent: the counter is null without bulk, and 0 with no queued record with bulk. |
| SinkState.DirectWriteKeepsState | lib/index.js:243-259 | A direct write appends one insert of the record, plus `'write-error'` on failure. The inserted records stay the acknowledged ones in order. |
| SinkState.BulkWriteKeepsState | lib/index.js:168-186 | Under the invariant, the modulo test fires exactly when the counter reaches the buffer size. The executed group then includes the completing record and is full. The counter returns to 0 and the queue to empty, so counter = queue length < bufferSize and executed groups + queue = received still hold. |
| SinkState.InsertKeepsState | lib/index.js:160-187 | Every acknowledged write, on either path, keeps the connected invariant. |
| SinkState.CloseThenDone | lib/index.js:59-65 | Close followed by `'done'` at the end of a log without either puts each exactly once, close immediately before done. |
| SinkState.DirectDrained | lib/index.js:63-66 | Without bulk, finishing adds close and `'done'` only. Every acknowledged record was inserted once, in order, and nothing was executed. |
| SinkState.FinalGroupsAreChunks | lib/index.js:55-61 | The full executed groups plus the non-empty remainder are the reference split of the received records, with its count and shape. |
| SinkState.FinalFlushEvents | lib/index.js:55-61 | The final execute, close and `'done'` add the remainder as one last group, and no single insert. |
| SinkState.BulkDrained | lib/index.js:55-61 | With bulk, the trace at `'done'` executes exactly the reference split of the received records, with close immediately before done. |
| SinkState.FinishDrains | lib/index.js:53-68 | Finishing a connected sink in either mode leaves the drained trace. |
| Sink.SaveToMongo.constructor | lib/index.js:17-43 | Builds the state `ValidateOptions` describes. Nothing is connected or queued. The counter is null without bulk and 0 with bulk, and the invariant holds. |
| Sink.SaveToMongo.Connect | lib/index.js:80-115 | Succeeds exactly when the connection checks pass, logging the connection with its target. Otherwise it logs the `'error'` and stays unconnected. |
| Sink.SaveToMongo.Write | lib/index.js:136-151 | A write is acknowledged exactly when the sink was connected or the connection checks pass. A rejected first write emits only the `'error'`, receives nothing and leaves the sink stalled. An acknowledged one logs the connection if it was the first write, then the insert's entries, and keeps the invariant. With bulk, a group object tagged with the configured mode and holding the queued records is in place afterwards (lib/index.js:176, 227); without bulk the group is untouched. |
| Sink.SaveToMongo.Insert | lib/index.js:160-187 | Always acknowledges. The new log, counter and queue are those of `InsertEvents`, `NextCounter` and `NextPending`. With bulk, a group tagged with the configured mode holds exactly the queued records afterwards: after an execute it is the fresh one from `getBulkCollection` (lib/index.js:121-133). The invariant is kept. |
| Sink.SaveToMongo.ExecuteBulkOps | lib/index.js:195-216 | Logs the execute of the current group in its mode, plus `'execute-error'` on failure, and resets the counter to 0 either way. |
| Sink.SaveToMongo.BulkInsert | lib/index.js:224-234 | Obtains a group if there is none, tagged with the configured mode by `getBulkCollection` (lib/index.js:123-129), then queues the record after the ones already queued. |
| Sink.SaveToMongo.DefaultInsert | lib/index.js:243-261 | Logs one insert, plus `'write-error'` on failure, and acknowledges either way. |
| Sink.SaveToMongo.Finish | lib/index.js:53-68 | Executes the queue only with bulk and a non-zero counter, then closes, then emits `'done'`. The trace is `Drained`. The counter is 0 (null without bulk) and the executed group object is left in place. |
| Scenarios.MissingUri | test/index.js:22-36 | Without `uri`, the first write is not acknowledged and the only effect is the `'error'` for `uri`. |
| Scenarios.DuplicateKey | test/index.js:180-215 | A duplicate-key rejection is a `'write-error'`. The next record is still inserted, and the sink closes and emits `'done'`. |
| Scenarios.SmallBuffer | test/index.js:128-151 | With an ordered buffer of two and three records, the trace is the connection, an execute of the first two, an execute of the third, close and `'done'`. |

## Left out

- The MongoDB driver is not modelled. Connecting, inserting, creating and executing bulk objects, and closing become log entries, whose outcome is a parameter. The semantics of ordered and unordered groups belong to the store, so only the mode tag is kept.
- Driver connection failure (lib/index.js:103-113) is left out. Once the option checks pass, the connection is taken to succeed. With a failed connection the source dereferences an undefined `db`.
- Asynchrony and callbacks are left out. Each write, execute and the finish handler is one synchronous step. The source acknowledges a write only after its execute settles, so at most one record is ever in flight.
- The Node stream machinery is left out: `Writable`, `util.inherits`, `streamOptions`, the event emitter and `debug` logging. Emitted events are log entries.
- Sink.SaveToMongo.Write requires the sink not to be stalled. After an `'error'` the source never calls the write callback, so the stream delivers no further record.
- Sink.SaveToMongo.Finish requires a connected sink. Finishing a sink that never received a record calls `close` on an undefined `_db` (lib/index.js:64).
- Sink.SaveToMongo.constructor requires options that `ValidateOptions` accepts. The throwing path is the `Failure` result of that function.
- Non-integer numbers, NaN and infinities are left out. `Js.Value` numbers are integers, so e.g. a buffer size of 2.5 together with the `%` at lib/index.js:168 is not modelled.
- The constructor writes the default buffer size into the caller's own `bulk` object (lib/index.js:43). That aliasing is invisible to the sink and is not modelled. The model stores the defaulted size in its own configuration. The source also reads `uri`, `collection` and `connection` from the options object only when the first write arrives (lib/index.js:87-103), and `bulk.mode` and `bulk.bufferSize` on every write (lib/index.js:127, 168). A caller who changes these objects after construction therefore changes the source's behaviour. The model fixes the options when the sink is constructed.
- Repeated keys, prototypes and getters on option objects are left out. `Js.Get` reads an own property of a plain object and gives `undefined` on anything else.
