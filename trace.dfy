/**
 * The observable behaviour of the sink as one log: the driver calls it makes and
 * the events it emits, in order.
 */
module Trace {
  import opened Js
  import opened Options

  /** A record is any JavaScript value the upstream stream delivers. */
  type Record = Value

  /** How the store answers an insert or a bulk execute. */
  datatype DriverReply = Accepted | Rejected(code: int)

  datatype Event =
    | Connect(target: Target)                  // MongoClient.connect, and selecting the collection
    | Insert(record: Record)                   // collection.insert of one record
    | Flush(mode: Mode, group: seq<Record>)    // execute of a bulk group
    | Close                                    // db.close
    | Error(error: ConnectOptionError)         // 'error' event
    | WriteError(code: int)                    // 'write-error' event
    | ExecuteError(code: int)                  // 'execute-error' event
    | Done                                     // 'done' event

  /** The entries one single insert adds: the insert, and `'write-error'` if it failed. */
  function SingleInsert(r: Record, reply: DriverReply): seq<Event> {
    if reply.Rejected? then [Insert(r), WriteError(reply.code)] else [Insert(r)]
  }

  /** The entries one bulk execute adds: the execute, and `'execute-error'` if it failed. */
  function BulkExecute(mode: Mode, group: seq<Record>, reply: DriverReply): seq<Event> {
    if reply.Rejected? then [Flush(mode, group), ExecuteError(reply.code)] else [Flush(mode, group)]
  }

  /** The records sent as single inserts, in order. */
  function Inserted(log: seq<Event>): seq<Record> {
    if log == [] then [] else (if log[0].Insert? then [log[0].record] else []) + Inserted(log[1..])
  }

  /** The groups sent as bulk executes, in order. */
  function FlushGroups(log: seq<Event>): seq<seq<Record>> {
    if log == [] then [] else (if log[0].Flush? then [log[0].group] else []) + FlushGroups(log[1..])
  }

  lemma {:induction false} InsertedAppend(a: seq<Event>, b: seq<Event>)
    ensures Inserted(a + b) == Inserted(a) + Inserted(b)
  {
    if a == [] {
      assert a + b == b;
    } else {
      assert (a + b)[1..] == a[1..] + b;
      InsertedAppend(a[1..], b);
    }
  }

  lemma {:induction false} FlushGroupsAppend(a: seq<Event>, b: seq<Event>)
    ensures FlushGroups(a + b) == FlushGroups(a) + FlushGroups(b)
  {
    if a == [] {
      assert a + b == b;
    } else {
      assert (a + b)[1..] == a[1..] + b;
      FlushGroupsAppend(a[1..], b);
    }
  }

  /** An execute and its possible `'execute-error'` contribute exactly the executed group and no insert. */
  lemma BulkExecuteEntries(mode: Mode, group: seq<Record>, reply: DriverReply)
    ensures FlushGroups(BulkExecute(mode, group, reply)) == [group]
    ensures Inserted(BulkExecute(mode, group, reply)) == []
  {
    var entries := BulkExecute(mode, group, reply);
    if reply.Rejected? {
      assert entries[1..] == [ExecuteError(reply.code)] && entries[1..][1..] == [];
      assert FlushGroups(entries[1..]) == [] && Inserted(entries[1..]) == [];
    } else {
      assert entries[1..] == [];
    }
  }

  /** A single insert and its possible `'write-error'` contribute exactly the inserted record. */
  lemma SingleInsertEntries(r: Record, reply: DriverReply)
    ensures Inserted(SingleInsert(r, reply)) == [r]
  {
    var entries := SingleInsert(r, reply);
    if reply.Rejected? {
      assert entries[1..] == [WriteError(reply.code)] && entries[1..][1..] == [];
      assert Inserted(entries[1..]) == [];
    } else {
      assert entries[1..] == [];
    }
  }

  /** A log without executes has no executed groups. */
  lemma {:induction false} NoFlushes(log: seq<Event>)
    requires forall i :: 0 <= i < |log| ==> !log[i].Flush?
    ensures FlushGroups(log) == []
  {
    if log != [] {
      NoFlushes(log[1..]);
    }
  }

  /** A log without single inserts has no inserted records. */
  lemma {:induction false} NoInserts(log: seq<Event>)
    requires forall i :: 0 <= i < |log| ==> !log[i].Insert?
    ensures Inserted(log) == []
  {
    if log != [] {
      NoInserts(log[1..]);
    }
  }
}
