/**
 * Runs of the sink replayed on the model, one per behaviour the repository's tests
 * exercise: a missing `uri`, a duplicate-key insert that does not stop the stream,
 * and a bulk stream whose buffer is smaller than its input.
 */
module Scenarios {
  import opened Wrappers
  import opened Js
  import opened Options
  import opened Trace
  import opened SinkState
  import opened Sink

  const Uri := "mongodb://127.0.0.1:27017/test"
  const CollectionName := "savetomongo"

  /** Without `uri` the first write emits its `'error'` and is never acknowledged. */
  method MissingUri(r: Record) returns (acked: bool, log: seq<Event>)
    ensures !acked
    ensures log == [Error(UriNotString)]
  {
    var sink := new SaveToMongo(Obj(map["collection" := Str(CollectionName)]));
    acked := sink.Write(r, Accepted);
    log := sink.log;
  }

  /** The options of the direct-mode tests, and the target they connect to. */
  function DirectOptions(): Value {
    Obj(map["uri" := Str(Uri), "collection" := Str(CollectionName)])
  }

  function TestTarget(): Target {
    Target(Uri, CollectionName, Obj(map[]))
  }

  /** The options of an ordered bulk with a buffer of two. */
  function SmallBufferOptions(): Value {
    var bulk := Obj(map["mode" := Str("ordered"), "bufferSize" := Num(2)]);
    Obj(map["uri" := Str(Uri), "collection" := Str(CollectionName), "bulk" := bulk])
  }

  /**
   * A rejected insert (code 11000, duplicate key) is reported as `'write-error'` and
   * the stream goes on: both writes are acknowledged and the sink closes normally.
   */
  method DuplicateKey(dup: Record, other: Record) returns (acked: bool, log: seq<Event>)
    ensures acked
    ensures log == [Connect(TestTarget()), Insert(dup), WriteError(11000), Insert(other), Close, Done]
  {
    assert Get(Normalize(DirectOptions()), "bulk") == Undefined;
    var sink := new SaveToMongo(DirectOptions());
    assert sink.bulk == None && CheckConnectOptions(sink.options) == Success(TestTarget());
    var first := sink.Write(dup, Rejected(11000));
    acked, log := DirectTail(sink, other);
    acked := acked && first;
  }

  /** The second direct write, accepted, followed by the finish handler. */
  method DirectTail(sink: SaveToMongo, r: Record) returns (acked: bool, log: seq<Event>)
    requires sink.Valid() && sink.connected && sink.bulk.None?
    modifies sink
    ensures acked && log == old(sink.log) + [Insert(r), Close, Done]
  {
    ghost var before := sink.log;
    assert InsertEvents(None, sink.opCounter, sink.Pending(), r, Accepted) == [Insert(r)];
    acked := sink.Write(r, Accepted);
    assert sink.log == before + [Insert(r)];
    sink.Finish(Accepted);
    assert FinishFlush(None, None, [], Accepted) == [];
    log := sink.log;
  }

  /**
   * Ordered bulk with a buffer of two and three records: the second write executes the
   * full group, the finish handler executes the remainder, then close and `'done'`.
   */
  method SmallBuffer(a: Record, b: Record, c: Record) returns (acked: bool, log: seq<Event>)
    ensures acked
    ensures log == [Connect(TestTarget()), Flush(Ordered, [a, b]), Flush(Ordered, [c]), Close, Done]
  {
    var sink := OpenSmallBuffer();
    var first := sink.Write(a, Accepted);
    var second := BulkSecond(sink, a, b);
    acked, log := BulkTail(sink, c);
    acked := acked && first && second;
  }

  /** The sink built from `SmallBufferOptions`, before any write. */
  method OpenSmallBuffer() returns (sink: SaveToMongo)
    ensures fresh(sink) && sink.Valid() && !sink.connected && !sink.stalled
    ensures sink.bulk == Some(BulkConfig(Ordered, 2)) && CheckConnectOptions(sink.options) == Success(TestTarget())
  {
    var bulk := Obj(map["mode" := Str("ordered"), "bufferSize" := Num(2)]);
    assert Get(Normalize(SmallBufferOptions()), "bulk") == bulk;
    assert Get(bulk, "mode") == Str("ordered") && Get(bulk, "bufferSize") == Num(2);
    sink := new SaveToMongo(SmallBufferOptions());
  }

  /** The write that completes the first group of two executes it. */
  method BulkSecond(sink: SaveToMongo, a: Record, b: Record) returns (acked: bool)
    requires sink.Valid() && sink.connected && sink.bulk == Some(BulkConfig(Ordered, 2))
    requires sink.opCounter == Some(1) && sink.Pending() == [a]
    modifies sink
    ensures sink.Valid() && sink.connected && sink.bulk == Some(BulkConfig(Ordered, 2))
    ensures acked && sink.log == old(sink.log) + [Flush(Ordered, [a, b])]
    ensures sink.opCounter == Some(0) && sink.Pending() == []
  {
    assert AtBoundary(2, 1) && [a] + [b] == [a, b];
    acked := sink.Write(b, Accepted);
  }

  /** One more record in a fresh group, executed by the finish handler. */
  method BulkTail(sink: SaveToMongo, c: Record) returns (acked: bool, log: seq<Event>)
    requires sink.Valid() && sink.connected && sink.bulk == Some(BulkConfig(Ordered, 2))
    requires sink.opCounter == Some(0) && sink.Pending() == []
    modifies sink
    ensures acked && log == old(sink.log) + [Flush(Ordered, [c]), Close, Done]
  {
    assert !AtBoundary(2, 0) && [] + [c] == [c];
    acked := sink.Write(c, Accepted);
    sink.Finish(Accepted);
    log := sink.log;
  }
}
