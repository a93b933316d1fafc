/**
 * `SaveToMongo`, the writable sink: lazy connection on the first write, the direct
 * path (one insert per record) and the bulk path (records accumulate in a group that is
 * executed whenever the counter reaches a multiple of the buffer size, and once more
 * when the stream finishes).
 */
module Sink {
  import opened Wrappers
  import opened Js
  import opened Options
  import opened Trace
  import opened SinkState

  /** The driver's bulk operation object: its ordering mode and the inserts queued on it. */
  datatype BulkOp = BulkOp(mode: Mode, ops: seq<Record>)

  class SaveToMongo {
    /** `this.options`, after `opts || {}`. */
    const options: Value
    /** `this.bulk`: present exactly when batching was requested. */
    const bulk: Option<BulkConfig>
    /** `this.opCounter`: `null` (None) without bulk, a count of queued records with it. */
    var opCounter: Option<nat>
    /** `this._bulkCollection`: undefined (None) until the first bulk insert. */
    var bulkCollection: Option<BulkOp>
    /** `this._db` is set. */
    var connected: bool
    /** An `'error'` was emitted on the first write, whose callback therefore never runs. */
    var stalled: bool
    /** The stream has finished. */
    var finished: bool
    /** The driver calls made and the events emitted so far. */
    var log: seq<Event>
    /** The records whose write was acknowledged, in arrival order. */
    ghost var received: seq<Record>

    /** The records queued on the current bulk group. */
    function Pending(): seq<Record>
      reads this
    {
      if bulkCollection.Some? then bulkCollection.value.ops else []
    }

    /** The state between two acknowledged writes. */
    ghost predicate Valid()
      reads this
    {
      && !finished
      && (bulk.None? <==> opCounter.None?)
      && (bulkCollection.Some? ==> bulk.Some? && bulkCollection.value.mode == bulk.value.mode)
      && (if connected then
            && !stalled
            && CheckConnectOptions(options).Success?
            && ConnectedState(CheckConnectOptions(options).value, bulk, log, opCounter, Pending(), received)
          else
            NotYetConnected())
    }

    /** Before the connection: nothing sent, and at most the one `'error'` of a rejected first write. */
    ghost predicate NotYetConnected()
      reads this
    {
      && received == []
      && (bulk.Some? ==> opCounter == Some(0))
      && bulkCollection.None?
      && (stalled ==> CheckConnectOptions(options).Failure?)
      && log == (if stalled then [Error(CheckConnectOptions(options).error)] else [])
    }

    /**
     * The constructor, for options its checks accept (ValidateOptions gives the errors
     * it throws otherwise). It connects to nothing: without bulk the counter is null,
     * with bulk it is 0 and no group exists yet.
     */
    constructor (opts: Value)
      requires ValidateOptions(opts).Success?
      ensures Valid()
      ensures options == ValidateOptions(opts).value.options && bulk == ValidateOptions(opts).value.bulk
      ensures opCounter == (if bulk.Some? then Some(0) else None)
      ensures bulkCollection.None? && !connected && !stalled
      ensures log == [] && received == []
    {
      var settings := ValidateOptions(opts).value;
      options := settings.options;
      bulk := settings.bulk;
      opCounter := if settings.bulk.Some? then Some(0) else None;
      bulkCollection := None;
      connected := false;
      stalled := false;
      finished := false;
      log := [];
      received := [];
    }

    /** `getBulkCollection`: a fresh, empty group tagged with the configured mode. */
    function GetBulkCollection(): BulkOp
      requires bulk.Some?
    {
      BulkOp(bulk.value.mode, [])
    }

    /**
     * `connect`: the option checks in the order uri, collection, connection; a failure is
     * emitted as `'error'` and the driver is never called.
     */
    method Connect() returns (ok: bool)
      modifies this`log, this`connected
      ensures ok == CheckConnectOptions(options).Success?
      ensures ok ==> connected && log == old(log) + [Event.Connect(CheckConnectOptions(options).value)]
      ensures !ok ==> connected == old(connected) && log == old(log) + [Error(CheckConnectOptions(options).error)]
    {
      var check := CheckConnectOptions(options);
      if check.Failure? {
        log := log + [Error(check.error)];
        return false;
      }
      log := log + [Event.Connect(check.value)];
      connected := true;
      ok := true;
    }

    /**
     * `_write`: connects on the first record; a rejected connection emits `'error'` and
     * the record is never acknowledged, otherwise the record goes to `insert` and is
     * acknowledged whatever the store answers.
     */
    method Write(r: Record, reply: DriverReply) returns (acked: bool)
      requires Valid() && !stalled
      modifies this
      ensures Valid()
      ensures acked <==> old(connected) || CheckConnectOptions(options).Success?
      ensures !acked ==> stalled && !connected && received == old(received)
      ensures !acked ==> log == old(log) + [Error(CheckConnectOptions(options).error)]
      ensures acked ==> connected && received == old(received) + [r]
      ensures acked ==> log == old(log) + (if old(connected) then [] else [Event.Connect(CheckConnectOptions(options).value)])
                                        + InsertEvents(bulk, old(opCounter), old(Pending()), r, reply)
      ensures acked ==> opCounter == NextCounter(bulk, old(opCounter))
      ensures acked ==> Pending() == NextPending(bulk, old(opCounter), old(Pending()), r)
      ensures acked && bulk.Some? ==> bulkCollection == Some(BulkOp(bulk.value.mode, Pending()))
      ensures acked && bulk.None? ==> bulkCollection == old(bulkCollection)
    {
      if !connected {
        var ok := Connect();
        if !ok {
          stalled := true;
          return false;
        }
        ConnectedStart(CheckConnectOptions(options).value, bulk);
      }
      acked := Insert(r, reply);
    }

    /**
     * `insert`: without bulk a single insert; with bulk the counter is incremented and
     * the record queued, and when the counter is a multiple of the buffer size the group
     * including this record is executed and a fresh group installed before the write is
     * acknowledged. It always acknowledges.
     */
    method Insert(r: Record, reply: DriverReply) returns (acked: bool)
      requires Valid() && connected
      modifies this`log, this`opCounter, this`bulkCollection, this`received
      ensures Valid() && acked
      ensures received == old(received) + [r]
      ensures log == old(log) + InsertEvents(bulk, old(opCounter), old(Pending()), r, reply)
      ensures opCounter == NextCounter(bulk, old(opCounter))
      ensures Pending() == NextPending(bulk, old(opCounter), old(Pending()), r)
      ensures bulk.None? ==> bulkCollection == old(bulkCollection)
      ensures bulk.Some? ==> bulkCollection == Some(BulkOp(bulk.value.mode, Pending()))
    {
      ghost var target := CheckConnectOptions(options).value;
      ghost var nextLog := log + InsertEvents(bulk, opCounter, Pending(), r, reply);
      ghost var nextCounter := NextCounter(bulk, opCounter);
      ghost var nextPending := NextPending(bulk, opCounter, Pending(), r);
      InsertKeepsState(target, bulk, log, opCounter, Pending(), received, r, reply);
      received := received + [r];
      if bulk.None? {
        acked := DefaultInsert(r, reply);
      } else {
        ghost var boundary := AtBoundary(bulk.value.bufferSize, opCounter.value);
        ghost var queued := Pending() + [r];
        opCounter := Some(opCounter.value + 1);
        if opCounter.value % bulk.value.bufferSize == 0 {
          assert boundary && nextLog == old(log) + BulkExecute(bulk.value.mode, queued, reply);
          BulkInsert(r);
          ExecuteBulkOps(reply);
          bulkCollection := Some(GetBulkCollection());
          acked := true;
        } else {
          assert !boundary && nextLog == old(log);
          BulkInsert(r);
          acked := true;
        }
      }
      assert log == nextLog && opCounter == nextCounter && Pending() == nextPending;
    }

    /**
     * `executeBulkOps`: executes the current group in its mode; a failure is emitted as
     * `'execute-error'` and never passed on, and the counter is reset either way.
     */
    method ExecuteBulkOps(reply: DriverReply)
      requires bulkCollection.Some?
      modifies this`log, this`opCounter
      ensures log == old(log) + BulkExecute(bulkCollection.value.mode, bulkCollection.value.ops, reply)
      ensures opCounter == Some(0)
    {
      var entries := [Flush(bulkCollection.value.mode, bulkCollection.value.ops)];
      if reply.Rejected? {
        entries := entries + [ExecuteError(reply.code)];
      }
      log := log + entries;
      opCounter := Some(0);
    }

    /** `_bulkInsert`: obtains a group if there is none, then queues `r` on it. */
    method BulkInsert(r: Record)
      requires bulk.Some?
      requires bulkCollection.Some? ==> bulkCollection.value.mode == bulk.value.mode
      modifies this`bulkCollection
      ensures bulkCollection == Some(BulkOp(bulk.value.mode, old(Pending()) + [r]))
    {
      if bulkCollection.None? {
        bulkCollection := Some(GetBulkCollection());
      }
      bulkCollection := Some(bulkCollection.value.(ops := bulkCollection.value.ops + [r]));
    }

    /**
     * `_defaultInsert`: one insert; a failure is emitted as `'write-error'` and the
     * write is acknowledged without an error all the same.
     */
    method DefaultInsert(r: Record, reply: DriverReply) returns (acked: bool)
      modifies this`log
      ensures acked
      ensures log == old(log) + SingleInsert(r, reply)
    {
      var entries := [Event.Insert(r)];
      if reply.Rejected? {
        entries := entries + [WriteError(reply.code)];
      }
      log := log + entries;
      acked := true;
    }

    /**
     * The `'finish'` handler: with bulk and a non-zero counter one final execute, then
     * `close`, then `'done'`; the resulting trace is the one `Drained` describes. The
     * executed group object stays in place and only the counter is reset.
     */
    method Finish(reply: DriverReply)
      requires Valid() && connected
      modifies this
      ensures finished && received == old(received) && bulkCollection == old(bulkCollection)
      ensures log == old(log) + FinishFlush(bulk, old(opCounter), old(Pending()), reply) + [Close] + [Done]
      ensures opCounter == (if bulk.Some? then Some(0) else None)
      ensures Drained(bulk, log, received)
    {
      FinishDrains(CheckConnectOptions(options).value, bulk, log, opCounter, Pending(), received, reply);
      ghost var flushed := log + FinishFlush(bulk, opCounter, Pending(), reply);
      if bulk.Some? && opCounter.value > 0 {
        ExecuteBulkOps(reply);
      }
      assert log == flushed;
      log := log + [Close];
      log := log + [Done];
      finished := true;
    }
  }
}
