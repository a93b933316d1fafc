/**
 * The sink's state machine on values: what holds between two acknowledged writes,
 * the log entries one write and the finish handler add, and the proofs that each
 * write keeps the invariant and that finishing leaves the promised trace.
 */
module SinkState {
  import opened Wrappers
  import opened Options
  import opened Batching
  import opened Trace

  /** Direct mode after the connection: one insert per acknowledged record, in arrival order. */
  ghost predicate DirectState(log: seq<Event>, received: seq<Record>) {
    && (forall i :: 1 <= i < |log| ==> log[i].Insert? || log[i].WriteError?)
    && Inserted(log) == received
  }

  /**
   * Bulk mode after the connection, between writes: every executed group was full and in
   * the configured mode, the counter equals the size of the current group and stays below
   * the buffer size, and the executed groups followed by the current one are the
   * acknowledged records in arrival order.
   */
  ghost predicate BulkState(log: seq<Event>, mode: Mode, size: BufferSize, counter: nat, pending: seq<Record>, received: seq<Record>) {
    && (forall i :: 1 <= i < |log| ==> (log[i].Flush? && log[i].mode == mode) || log[i].ExecuteError?)
    && AllOfSize(FlushGroups(log), size)
    && counter == |pending| < size
    && Flatten(FlushGroups(log)) + pending == received
  }

  /** Connected and between writes: the one `Connect` first, then the entries of the configured path. */
  ghost predicate ConnectedState(target: Target, bulk: Option<BulkConfig>, log: seq<Event>, counter: Option<nat>,
                                 pending: seq<Record>, received: seq<Record>) {
    && |log| >= 1 && log[0] == Connect(target)
    && (bulk.None? ==> counter.None? && pending == [] && DirectState(log, received))
    && (bulk.Some? ==> counter.Some? && BulkState(log, bulk.value.mode, bulk.value.bufferSize, counter.value, pending, received))
  }

  /** `++opCounter % bufferSize === 0`: the write of one more record triggers an execute. */
  predicate AtBoundary(size: BufferSize, counter: nat) {
    (counter + 1) % size == 0
  }

  /**
   * The entries a bulk write adds: at the boundary the execute of the group completed
   * by `r`, and `'execute-error'` if it failed; nothing otherwise.
   */
  function BulkEvents(mode: Mode, size: BufferSize, counter: nat, pending: seq<Record>, r: Record, reply: DriverReply): seq<Event> {
    if AtBoundary(size, counter) then BulkExecute(mode, pending + [r], reply) else []
  }

  /** The entries one acknowledged write adds on the configured path. */
  function InsertEvents(bulk: Option<BulkConfig>, counter: Option<nat>, pending: seq<Record>, r: Record, reply: DriverReply): seq<Event>
    requires bulk.Some? ==> counter.Some?
  {
    if bulk.None? then SingleInsert(r, reply)
    else BulkEvents(bulk.value.mode, bulk.value.bufferSize, counter.value, pending, r, reply)
  }

  /** The counter after a write: unchanged (null) without bulk, 0 after an execute, one more otherwise. */
  function NextCounter(bulk: Option<BulkConfig>, counter: Option<nat>): Option<nat>
    requires bulk.Some? ==> counter.Some?
  {
    if bulk.None? then counter
    else if AtBoundary(bulk.value.bufferSize, counter.value) then Some(0)
    else Some(counter.value + 1)
  }

  /** The current group after a write: a fresh empty one after an execute, one record longer otherwise. */
  function NextPending(bulk: Option<BulkConfig>, counter: Option<nat>, pending: seq<Record>, r: Record): seq<Record>
    requires bulk.Some? ==> counter.Some?
  {
    if bulk.None? then pending
    else if AtBoundary(bulk.value.bufferSize, counter.value) then []
    else pending + [r]
  }

  /** The execute the finish handler runs before closing: only with bulk and a non-zero counter. */
  function FinishFlush(bulk: Option<BulkConfig>, counter: Option<nat>, pending: seq<Record>, reply: DriverReply): seq<Event>
    requires bulk.Some? ==> counter.Some?
  {
    if bulk.Some? && counter.value > 0 then BulkExecute(bulk.value.mode, pending, reply) else []
  }

  /**
   * The trace after `'done'`: close immediately before `'done'`, each exactly once; in
   * direct mode every acknowledged record inserted once, in order, and no execute; in
   * bulk mode no single insert, and the executed groups are the records split into
   * groups of the buffer size: `n / size` of them plus one for a non-empty remainder,
   * all but the last full, together the records in arrival order.
   */
  ghost predicate Drained(bulk: Option<BulkConfig>, log: seq<Event>, received: seq<Record>) {
    && |log| >= 2 && log[|log| - 2] == Close && log[|log| - 1] == Done
    && Close !in log[..|log| - 2] && Done !in log[..|log| - 1]
    && (bulk.None? ==> Inserted(log) == received && FlushGroups(log) == [])
    && (bulk.Some? ==>
          var size := bulk.value.bufferSize;
          var groups := FlushGroups(log);
          && Inserted(log) == []
          && groups == Chunks(received, size)
          && Flatten(groups) == received
          && |groups| == |received| / size + (if |received| % size > 0 then 1 else 0)
          && (forall i :: 0 <= i < |groups| - 1 ==> |groups[i]| == size))
  }

  /** Right after the connection the invariant holds of the one-entry log. */
  lemma ConnectedStart(t: Target, bulk: Option<BulkConfig>)
    ensures ConnectedState(t, bulk, [Connect(t)], if bulk.Some? then Some(0) else None, [], [])
  {
    assert [Connect(t)][1..] == [];
  }

  /** A direct write keeps one insert per acknowledged record, in arrival order. */
  lemma DirectWriteKeepsState(log: seq<Event>, received: seq<Record>, r: Record, reply: DriverReply)
    requires |log| >= 1 && DirectState(log, received)
    ensures DirectState(log + SingleInsert(r, reply), received + [r])
  {
    InsertedAppend(log, SingleInsert(r, reply));
    SingleInsertEntries(r, reply);
  }

  /**
   * A bulk write keeps the invariant: the modulo test fires exactly when the counter
   * reaches the buffer size, the executed group is then full, and the counter and the
   * group start over.
   */
  lemma BulkWriteKeepsState(log: seq<Event>, mode: Mode, size: BufferSize, counter: nat, pending: seq<Record>,
                            received: seq<Record>, r: Record, reply: DriverReply)
    requires |log| >= 1 && BulkState(log, mode, size, counter, pending, received)
    ensures AtBoundary(size, counter) <==> counter + 1 == size
    ensures var boundary := AtBoundary(size, counter);
      BulkState(log + BulkEvents(mode, size, counter, pending, r, reply), mode, size,
                if boundary then 0 else counter + 1, if boundary then [] else pending + [r], received + [r])
  {
    ModuloBoundary(counter + 1, size);
    var events := BulkEvents(mode, size, counter, pending, r, reply);
    var done := Flatten(FlushGroups(log));
    FlushGroupsAppend(log, events);
    if AtBoundary(size, counter) {
      BulkExecuteEntries(mode, pending + [r], reply);
      FlattenSnoc(FlushGroups(log), pending + [r]);
      assert Flatten(FlushGroups(log + events)) == done + (pending + [r]);
    } else {
      assert log + events == log;
    }
    assert done + (pending + [r]) == (done + pending) + [r];
  }

  /** Every acknowledged write, on either path, keeps the invariant. */
  lemma InsertKeepsState(t: Target, bulk: Option<BulkConfig>, log: seq<Event>, counter: Option<nat>,
                         pending: seq<Record>, received: seq<Record>, r: Record, reply: DriverReply)
    requires ConnectedState(t, bulk, log, counter, pending, received)
    ensures ConnectedState(t, bulk, log + InsertEvents(bulk, counter, pending, r, reply),
                           NextCounter(bulk, counter), NextPending(bulk, counter, pending, r), received + [r])
  {
    var next := log + InsertEvents(bulk, counter, pending, r, reply);
    assert next[0] == log[0];
    if bulk.None? {
      DirectWriteKeepsState(log, received, r, reply);
    } else {
      BulkWriteKeepsState(log, bulk.value.mode, bulk.value.bufferSize, counter.value, pending, received, r, reply);
    }
  }

  /** Appending close and `'done'` to a log that has neither puts each exactly once, in that order, at the end. */
  lemma CloseThenDone(prefix: seq<Event>)
    requires forall i :: 0 <= i < |prefix| ==> prefix[i] != Close && prefix[i] != Done
    ensures var final := prefix + [Close, Done];
      && |final| >= 2 && final[|final| - 2] == Close && final[|final| - 1] == Done
      && Close !in final[..|final| - 2] && Done !in final[..|final| - 1]
  {
    var final := prefix + [Close, Done];
    assert final[..|final| - 2] == prefix;
    assert final[..|final| - 1] == prefix + [Close];
  }

  /** The final execute of the bulk path: only for a non-empty group. */
  function FinalFlush(mode: Mode, pending: seq<Record>, reply: DriverReply): seq<Event> {
    if pending == [] then [] else BulkExecute(mode, pending, reply)
  }

  /** In direct mode closing and `'done'` add no insert, and nothing is ever executed. */
  lemma DirectDrained(log: seq<Event>, received: seq<Record>)
    requires |log| >= 1 && log[0].Connect? && DirectState(log, received)
    ensures Drained(None, log + [Close, Done], received)
  {
    InsertedAppend(log, [Close, Done]);
    assert [Close, Done][1..] == [Done];
    NoFlushes(log + [Close, Done]);
    CloseThenDone(log);
  }

  /**
   * Full groups followed by a shorter remainder, the remainder executed only when
   * non-empty: that is the reference split, with its count and shape.
   */
  lemma FinalGroupsAreChunks(gs: seq<seq<Record>>, pending: seq<Record>, received: seq<Record>, size: BufferSize)
    requires AllOfSize(gs, size) && |pending| < size && Flatten(gs) + pending == received
    ensures var groups := gs + (if pending == [] then [] else [pending]);
      && groups == Chunks(received, size)
      && Flatten(groups) == received
      && |groups| == |received| / size + (if |received| % size > 0 then 1 else 0)
      && (forall i :: 0 <= i < |groups| - 1 ==> |groups[i]| == size)
  {
    DecompositionIsChunks(gs, pending, received, size);
    ChunksShape(received, size);
    ChunksCount(received, size);
  }

  /** The final execute, close and `'done'` add the remainder as the one last group, and no insert. */
  lemma FinalFlushEvents(log: seq<Event>, mode: Mode, pending: seq<Record>, reply: DriverReply)
    requires Inserted(log) == []
    ensures var final := log + FinalFlush(mode, pending, reply) + [Close, Done];
      && FlushGroups(final) == FlushGroups(log) + (if pending == [] then [] else [pending])
      && Inserted(final) == []
  {
    var flushed := FinalFlush(mode, pending, reply);
    var prefix := log + flushed;
    FlushGroupsAppend(prefix, [Close, Done]);
    FlushGroupsAppend(log, flushed);
    InsertedAppend(prefix, [Close, Done]);
    InsertedAppend(log, flushed);
    if pending != [] {
      BulkExecuteEntries(mode, pending, reply);
    }
    assert FlushGroups([Close, Done]) == [] && Inserted([Close, Done]) == [] by {
      assert [Close, Done][1..] == [Done];
    }
  }

  /** In bulk mode the executed groups at `'done'` are the reference split of the records. */
  lemma BulkDrained(log: seq<Event>, config: BulkConfig, pending: seq<Record>, received: seq<Record>, reply: DriverReply)
    requires |log| >= 1 && log[0].Connect?
    requires BulkState(log, config.mode, config.bufferSize, |pending|, pending, received)
    ensures Drained(Some(config), log + FinalFlush(config.mode, pending, reply) + [Close, Done], received)
  {
    var flushed := FinalFlush(config.mode, pending, reply);
    var prefix := log + flushed;
    NoInserts(log);
    FinalFlushEvents(log, config.mode, pending, reply);
    FinalGroupsAreChunks(FlushGroups(log), pending, received, config.bufferSize);
    forall i | 0 <= i < |prefix|
      ensures prefix[i] != Close && prefix[i] != Done
    {
      if i >= |log| {
        assert prefix[i] == flushed[i - |log|];
      }
    }
    CloseThenDone(prefix);
  }

  /** Finishing a connected sink leaves the trace `Drained` describes. */
  lemma FinishDrains(t: Target, bulk: Option<BulkConfig>, log: seq<Event>, counter: Option<nat>,
                     pending: seq<Record>, received: seq<Record>, reply: DriverReply)
    requires ConnectedState(t, bulk, log, counter, pending, received)
    ensures Drained(bulk, log + FinishFlush(bulk, counter, pending, reply) + [Close] + [Done], received)
  {
    var flushed := FinishFlush(bulk, counter, pending, reply);
    assert log + flushed + [Close] + [Done] == log + flushed + [Close, Done];
    if bulk.None? {
      assert log + flushed == log;
      DirectDrained(log, received);
    } else {
      assert flushed == FinalFlush(bulk.value.mode, pending, reply);
      BulkDrained(log, bulk.value, pending, received, reply);
    }
  }
}
