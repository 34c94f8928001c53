/**
 The in-memory transaction over the key-value database (crates/database): a write overlay whose reads
 and whose commit agree with executing the same operations on the database directly.
 */
module Transactions {
  import opened Types

  type Bytes = seq<byte>
  type Schema = string
  type Table = map<Bytes, Bytes>
  type Contents = map<Schema, Table>

  datatype WriteOperation = Put(value: Bytes) | Delete

  type Changes = map<Schema, map<Bytes, WriteOperation>>

  // ---------- direct execution ----------

  function TableOf(contents: Contents, schema: Schema): Table {
    if schema in contents then contents[schema] else map[]
  }

  function Lookup(contents: Contents, schema: Schema, key: Bytes): Option<Bytes> {
    var table := TableOf(contents, schema);
    if key in table then Some(table[key]) else None
  }

  function WriteOne(contents: Contents, schema: Schema, key: Bytes, operation: WriteOperation): Contents {
    var table := TableOf(contents, schema);
    contents[schema := if operation.Put? then table[key := operation.value] else table - {key}]
  }

  // ---------- the overlay ----------

  function OperationsOf(changes: Changes, schema: Schema): map<Bytes, WriteOperation> {
    if schema in changes then changes[schema] else map[]
  }

  function OverlayTable(table: Table, operations: map<Bytes, WriteOperation>): Table {
    map key | key in table.Keys + operations.Keys && (key in operations ==> operations[key].Put?) ::
      if key in operations then operations[key].value else table[key]
  }

  /** The database as the transaction sees it. */
  function Overlay(base: Contents, changes: Changes): Contents {
    map schema | schema in base.Keys + changes.Keys ::
      OverlayTable(TableOf(base, schema), OperationsOf(changes, schema))
  }

  function Record(changes: Changes, schema: Schema, key: Bytes, operation: WriteOperation): Changes {
    changes[schema := OperationsOf(changes, schema)[key := operation]]
  }

  /** All of `batch` over `changes`, as write_batch merges them. */
  function Merge(changes: Changes, batch: Changes): Changes {
    map schema | schema in changes.Keys + batch.Keys :: OperationsOf(changes, schema) + OperationsOf(batch, schema)
  }

  lemma TableRecord(table: Table, operations: map<Bytes, WriteOperation>, key: Bytes, operation: WriteOperation)
    ensures OverlayTable(table, operations[key := operation]) ==
              if operation.Put? then OverlayTable(table, operations)[key := operation.value]
              else OverlayTable(table, operations) - {key}
  {
  }

  lemma TableMerge(table: Table, operations: map<Bytes, WriteOperation>, newer: map<Bytes, WriteOperation>)
    ensures OverlayTable(table, operations + newer) == OverlayTable(OverlayTable(table, operations), newer)
  {
  }

  lemma TableUntouched(table: Table)
    ensures OverlayTable(table, map[]) == table
  {
  }

  /** Every table of the overlay, changed or not. */
  lemma OverlayAt(base: Contents, changes: Changes, schema: Schema)
    ensures TableOf(Overlay(base, changes), schema) ==
            OverlayTable(TableOf(base, schema), OperationsOf(changes, schema))
  {
  }

  /** Databases with the same schemas and tables are the same. */
  lemma SameContents(a: Contents, b: Contents)
    requires a.Keys == b.Keys && forall schema :: schema in a ==> TableOf(a, schema) == TableOf(b, schema)
    ensures a == b
  {
    forall schema | schema in a ensures a[schema] == b[schema] {
      assert TableOf(a, schema) == TableOf(b, schema);
    }
  }

  lemma RecordIsWrite(base: Contents, changes: Changes, schema: Schema, key: Bytes, operation: WriteOperation)
    ensures Overlay(base, Record(changes, schema, key, operation)) ==
            WriteOne(Overlay(base, changes), schema, key, operation)
  {
    var after := Record(changes, schema, key, operation);
    var left, right := Overlay(base, after), WriteOne(Overlay(base, changes), schema, key, operation);
    forall other ensures TableOf(left, other) == TableOf(right, other) {
      OverlayAt(base, after, other);
      OverlayAt(base, changes, other);
      if other == schema {
        TableRecord(TableOf(base, schema), OperationsOf(changes, schema), key, operation);
      }
    }
    SameContents(left, right);
  }

  lemma MergeIsOverlay(base: Contents, changes: Changes, batch: Changes)
    ensures Overlay(base, Merge(changes, batch)) == Overlay(Overlay(base, changes), batch)
  {
    var left, right := Overlay(base, Merge(changes, batch)), Overlay(Overlay(base, changes), batch);
    forall schema ensures TableOf(left, schema) == TableOf(right, schema) {
      OverlayAt(base, Merge(changes, batch), schema);
      OverlayAt(base, changes, schema);
      OverlayAt(Overlay(base, changes), batch, schema);
      MergedOperations(changes, batch, schema);
      TableMerge(TableOf(base, schema), OperationsOf(changes, schema), OperationsOf(batch, schema));
    }
    SameContents(left, right);
  }

  lemma MergedOperations(changes: Changes, batch: Changes, schema: Schema)
    ensures OperationsOf(Merge(changes, batch), schema) == OperationsOf(changes, schema) + OperationsOf(batch, schema)
  {
  }

  // ---------- sequences of operations ----------

  datatype Operation =
    | PutOne(schema: Schema, key: Bytes, value: Bytes)
    | DeleteOne(schema: Schema, key: Bytes)
    | Batch(changes: Changes)

  /** The operation executed on a database. */
  function Execute(contents: Contents, operation: Operation): Contents {
    match operation
    case PutOne(schema, key, value) => WriteOne(contents, schema, key, Put(value))
    case DeleteOne(schema, key) => WriteOne(contents, schema, key, Delete)
    case Batch(changes) => Overlay(contents, changes)
  }

  /** The operation recorded by a transaction. */
  function Collect(changes: Changes, operation: Operation): Changes {
    match operation
    case PutOne(schema, key, value) => Record(changes, schema, key, Put(value))
    case DeleteOne(schema, key) => Record(changes, schema, key, Delete)
    case Batch(batch) => Merge(changes, batch)
  }

  function ExecuteAll(contents: Contents, operations: seq<Operation>): Contents {
    if |operations| == 0 then contents
    else Execute(ExecuteAll(contents, operations[..|operations| - 1]), operations[|operations| - 1])
  }

  function CollectAll(operations: seq<Operation>): Changes {
    if |operations| == 0 then map[]
    else Collect(CollectAll(operations[..|operations| - 1]), operations[|operations| - 1])
  }

  lemma CollectIsExecute(base: Contents, changes: Changes, operation: Operation)
    ensures Overlay(base, Collect(changes, operation)) == Execute(Overlay(base, changes), operation)
  {
    match operation
    case PutOne(schema, key, value) => RecordIsWrite(base, changes, schema, key, Put(value));
    case DeleteOne(schema, key) => RecordIsWrite(base, changes, schema, key, Delete);
    case Batch(batch) => MergeIsOverlay(base, changes, batch);
  }

  /** After any operations the transaction sees the database those operations would have produced. */
  lemma {:induction false} TransactionRefinesDatabase(base: Contents, operations: seq<Operation>)
    ensures Overlay(base, CollectAll(operations)) == ExecuteAll(base, operations)
  {
    if |operations| == 0 {
      EmptyOverlay(base);
    } else {
      var before := operations[..|operations| - 1];
      TransactionRefinesDatabase(base, before);
      CollectIsExecute(base, CollectAll(before), operations[|operations| - 1]);
    }
  }

  /** Reading through the overlay, one key. */
  lemma OverlayLookup(base: Contents, changes: Changes, schema: Schema, key: Bytes)
    ensures Lookup(Overlay(base, changes), schema, key) ==
              if schema in changes && key in changes[schema] then
                if changes[schema][key].Put? then Some(changes[schema][key].value) else None
              else Lookup(base, schema, key)
  {
  }

  // ---------- the database ----------

  datatype BatchEntry = BatchEntry(schema: Schema, key: Bytes, operation: WriteOperation)

  /** A RocksDB write batch is applied in order. */
  function WriteAll(contents: Contents, batch: seq<BatchEntry>): Contents {
    if |batch| == 0 then contents
    else
      var last := batch[|batch| - 1];
      WriteOne(WriteAll(contents, batch[..|batch| - 1]), last.schema, last.key, last.operation)
  }

  lemma WriteAllLast(contents: Contents, batch: seq<BatchEntry>, entry: BatchEntry)
    ensures WriteAll(contents, batch + [entry]) ==
            WriteOne(WriteAll(contents, batch), entry.schema, entry.key, entry.operation)
  {
    assert (batch + [entry])[..|batch|] == batch;
  }

  class Database {
    var data: Contents

    constructor (schemas: set<Schema>)
      ensures data == map schema | schema in schemas :: map[]
    {
      data := map schema | schema in schemas :: map[];
    }

    /** Reading an unknown column family panics. */
    method RawGet(schema: Schema, key: Bytes) returns (value: Option<Bytes>)
      requires schema in data
      ensures value == Lookup(data, schema, key)
    {
      value := if key in data[schema] then Some(data[schema][key]) else None;
    }

    method MultiGet(schema: Schema, keys: seq<Bytes>) returns (values: seq<Option<Bytes>>)
      requires schema in data
      ensures |values| == |keys| && forall i :: 0 <= i < |keys| ==> values[i] == Lookup(data, schema, keys[i])
    {
      values := [];
      for i := 0 to |keys|
        invariant |values| == i && forall j :: 0 <= j < i ==> values[j] == Lookup(data, schema, keys[j])
      {
        var value := RawGet(schema, keys[i]);
        values := values + [value];
      }
    }

    method RawPut(schema: Schema, key: Bytes, value: Bytes)
      requires schema in data
      modifies this
      ensures data == WriteOne(old(data), schema, key, Put(value))
    {
      data := data[schema := data[schema][key := value]];
    }

    method RawDelete(schema: Schema, key: Bytes)
      requires schema in data
      modifies this
      ensures data == WriteOne(old(data), schema, key, Delete)
    {
      data := data[schema := data[schema] - {key}];
    }

    /** Builds the batch schema by schema and key by key, in whatever order the maps iterate, then writes it at once. */
    method RawWriteBatch(changes: Changes)
      requires changes.Keys <= data.Keys
      modifies this
      ensures data == Overlay(old(data), changes)
    {
      var batch: seq<BatchEntry> := [];
      var schemas := changes.Keys;
      EmptyOverlay(data);
      NothingLeft(changes);
      while schemas != {}
        invariant schemas <= changes.Keys && data == old(data)
        invariant WriteAll(data, batch) == Overlay(data, Rest(changes, schemas))
        decreases schemas
      {
        var schema :| schema in schemas;
        batch := AddSchema(batch, data, schema, changes[schema]);
        OneMoreSchema(data, changes, schemas, schema);
        schemas := schemas - {schema};
      }
      assert Rest(changes, {}) == changes;
      data := WriteAll(data, batch);
    }
  }

  /** The part of the changes outside the schemas still to do. */
  ghost function Rest<K, V>(all: map<K, V>, todo: set<K>): map<K, V> {
    map k | k in all && k !in todo :: all[k]
  }

  lemma NothingLeft<K, V>(all: map<K, V>)
    ensures Rest(all, all.Keys) == map[] && Rest(all, {}) == all
  {
  }

  lemma OneLessLeft<K, V>(all: map<K, V>, todo: set<K>, k: K)
    requires k in todo && todo <= all.Keys
    ensures Rest(all, todo - {k}) == Rest(all, todo)[k := all[k]] && k !in Rest(all, todo)
  {
  }

  lemma MergeFresh(changes: Changes, schema: Schema, operations: map<Bytes, WriteOperation>)
    requires schema !in changes
    ensures Merge(changes, map[schema := operations]) == changes[schema := operations]
  {
    var one: Changes := map[schema := operations];
    forall other
      ensures OperationsOf(Merge(changes, one), other) == OperationsOf(changes[schema := operations], other)
    {
      MergedOperations(changes, one, other);
    }
    SameChanges(Merge(changes, one), changes[schema := operations]);
  }

  lemma EmptyOverlay(base: Contents)
    ensures Overlay(base, map[]) == base
  {
    forall schema ensures TableOf(Overlay(base, map[]), schema) == TableOf(base, schema) {
      OverlayAt(base, map[], schema);
      TableUntouched(TableOf(base, schema));
    }
    SameContents(Overlay(base, map[]), base);
  }

  /** Writing all operations of one more schema extends the overlay by that schema. */
  lemma OneMoreSchema(base: Contents, changes: Changes, todo: set<Schema>, schema: Schema)
    requires schema in todo && todo <= changes.Keys
    ensures Overlay(Overlay(base, Rest(changes, todo)), map[schema := changes[schema]]) ==
            Overlay(base, Rest(changes, todo - {schema}))
  {
    OneLessLeft(changes, todo, schema);
    MergeFresh(Rest(changes, todo), schema, changes[schema]);
    MergeIsOverlay(base, Rest(changes, todo), map[schema := changes[schema]]);
  }

  lemma SameChanges(a: Changes, b: Changes)
    requires a.Keys == b.Keys && forall schema :: OperationsOf(a, schema) == OperationsOf(b, schema)
    ensures a == b
  {
    forall schema | schema in a ensures a[schema] == b[schema] {
      assert OperationsOf(a, schema) == OperationsOf(b, schema);
    }
  }

  /** The inner loop of raw_write_batch. */
  method AddSchema(batch: seq<BatchEntry>, ghost base: Contents, schema: Schema, operations: map<Bytes, WriteOperation>)
    returns (longer: seq<BatchEntry>)
    requires schema in WriteAll(base, batch)
    ensures WriteAll(base, longer) == Overlay(WriteAll(base, batch), map[schema := operations])
  {
    longer := batch;
    var keys := operations.Keys;
    ghost var start := WriteAll(base, batch);
    NothingLeft(operations);
    SingletonOverlay(start, schema);
    while keys != {}
      invariant keys <= operations.Keys
      invariant WriteAll(base, longer) == Overlay(start, map[schema := Rest(operations, keys)])
      decreases keys
    {
      var key :| key in keys;
      WriteAllLast(base, longer, BatchEntry(schema, key, operations[key]));
      OneMoreKey(start, schema, operations, keys, key);
      longer := longer + [BatchEntry(schema, key, operations[key])];
      keys := keys - {key};
    }
    assert Rest(operations, {}) == operations;
  }

  lemma OneMoreKey(start: Contents, schema: Schema, operations: map<Bytes, WriteOperation>, todo: set<Bytes>,
                   key: Bytes)
    requires key in todo && todo <= operations.Keys
    ensures WriteOne(Overlay(start, map[schema := Rest(operations, todo)]), schema, key, operations[key]) ==
              Overlay(start, map[schema := Rest(operations, todo - {key})])
  {
    var done: Changes := map[schema := Rest(operations, todo)];
    RecordIsWrite(start, done, schema, key, operations[key]);
    OneLessLeft(operations, todo, key);
    assert Record(done, schema, key, operations[key]) == done[schema := Rest(operations, todo - {key})];
    assert done[schema := Rest(operations, todo - {key})] == map[schema := Rest(operations, todo - {key})];
  }

  lemma SingletonOverlay(contents: Contents, schema: Schema)
    requires schema in contents
    ensures Overlay(contents, map[schema := map[]]) == contents
  {
    forall other ensures TableOf(Overlay(contents, map[schema := map[]]), other) == TableOf(contents, other) {
      OverlayAt(contents, map[schema := map[]], other);
      TableUntouched(TableOf(contents, other));
    }
    SameContents(Overlay(contents, map[schema := map[]]), contents);
  }

  // ---------- the transaction ----------

  class InMemoryTransaction {
    const db: Database
    var changes: Changes

    constructor (db: Database)
      ensures this.db == db && changes == map[]
    {
      this.db := db;
      changes := map[];
    }

    /** The database as this transaction sees it. */
    ghost function View(): Contents
      reads this, db
    {
      Overlay(db.data, changes)
    }

    method Get(schema: Schema, key: Bytes) returns (value: Option<Bytes>)
      requires schema in db.data || (schema in changes && key in changes[schema])
      ensures value == Lookup(View(), schema, key)
    {
      OverlayLookup(db.data, changes, schema, key);
      if schema in changes && key in changes[schema] {
        var operation := changes[schema][key];
        value := if operation.Put? then Some(operation.value) else None;
      } else {
        value := db.RawGet(schema, key);
      }
    }

    method MultiGet(schema: Schema, keys: seq<Bytes>) returns (values: seq<Option<Bytes>>)
      requires schema in db.data || (schema in changes && forall key :: key in keys ==> key in changes[schema])
      ensures |values| == |keys| && forall i :: 0 <= i < |keys| ==> values[i] == Lookup(View(), schema, keys[i])
    {
      if schema in changes {
        var operations := changes[schema];
        values := [];
        for i := 0 to |keys|
          invariant |values| == i && forall j :: 0 <= j < i ==> values[j] == Lookup(View(), schema, keys[j])
        {
          OverlayLookup(db.data, changes, schema, keys[i]);
          var value: Option<Bytes>;
          if keys[i] in operations {
            value := if operations[keys[i]].Put? then Some(operations[keys[i]].value) else None;
          } else {
            value := db.RawGet(schema, keys[i]);
          }
          values := values + [value];
        }
      } else {
        values := db.MultiGet(schema, keys);
        forall i | 0 <= i < |keys| ensures Lookup(db.data, schema, keys[i]) == Lookup(View(), schema, keys[i]) {
          OverlayLookup(db.data, changes, schema, keys[i]);
        }
      }
    }

    method Exists(schema: Schema, key: Bytes) returns (present: bool)
      requires schema in db.data || (schema in changes && key in changes[schema])
      ensures present == Lookup(View(), schema, key).Some?
    {
      OverlayLookup(db.data, changes, schema, key);
      if schema in changes && key in changes[schema] {
        present := changes[schema][key].Put?;
      } else {
        var value := db.RawGet(schema, key);
        present := value.Some?;
      }
    }

    method PutValue(schema: Schema, key: Bytes, value: Bytes)
      modifies this
      ensures changes == Collect(old(changes), PutOne(schema, key, value))
      ensures View() == Execute(old(View()), PutOne(schema, key, value))
    {
      RecordIsWrite(db.data, changes, schema, key, Put(value));
      var operations := if schema in changes then changes[schema] else map[];
      changes := changes[schema := operations[key := Put(value)]];
    }

    method DeleteValue(schema: Schema, key: Bytes)
      modifies this
      ensures changes == Collect(old(changes), DeleteOne(schema, key))
      ensures View() == Execute(old(View()), DeleteOne(schema, key))
    {
      RecordIsWrite(db.data, changes, schema, key, Delete);
      var operations := if schema in changes then changes[schema] else map[];
      changes := changes[schema := operations[key := Delete]];
    }

    /** Merges a batch entry by entry, in whatever order its maps iterate. */
    method WriteBatch(batch: Changes)
      modifies this
      ensures changes == Collect(old(changes), Batch(batch))
      ensures View() == Execute(old(View()), Batch(batch))
    {
      MergeIsOverlay(db.data, changes, batch);
      var schemas := batch.Keys;
      NothingLeft(batch);
      MergeNothing(changes);
      while schemas != {}
        invariant schemas <= batch.Keys && db.data == old(db.data)
        invariant changes == Merge(old(changes), Rest(batch, schemas))
        decreases schemas
      {
        var schema :| schema in schemas;
        var merged := MergeOperations(if schema in changes then changes[schema] else map[], batch[schema]);
        MergeOneMore(old(changes), batch, schemas, schema);
        changes := changes[schema := merged];
        schemas := schemas - {schema};
      }
      assert Rest(batch, {}) == batch;
    }

    /** Consumes the transaction: unknown column families panic before anything is written. */
    method Commit()
      requires changes.Keys <= db.data.Keys
      modifies db
      ensures db.data == old(View())
    {
      db.RawWriteBatch(changes);
    }
  }

  lemma MergeNothing(changes: Changes)
    ensures Merge(changes, map[]) == changes
  {
    forall schema ensures OperationsOf(Merge(changes, map[]), schema) == OperationsOf(changes, schema) {
      MergedOperations(changes, map[], schema);
    }
    SameChanges(Merge(changes, map[]), changes);
  }

  lemma MergeOneMore(changes: Changes, batch: Changes, todo: set<Schema>, schema: Schema)
    requires schema in todo && todo <= batch.Keys
    ensures var now := Merge(changes, Rest(batch, todo));
            now[schema := OperationsOf(now, schema) + batch[schema]] == Merge(changes, Rest(batch, todo - {schema}))
  {
    OneLessLeft(batch, todo, schema);
    MergeInto(changes, Rest(batch, todo), schema, batch[schema]);
  }

  lemma MergeInto(changes: Changes, done: Changes, schema: Schema, operations: map<Bytes, WriteOperation>)
    requires schema !in done
    ensures var now := Merge(changes, done);
            now[schema := OperationsOf(now, schema) + operations] == Merge(changes, done[schema := operations])
  {
    var now, all := Merge(changes, done), Merge(changes, done[schema := operations]);
    var next := now[schema := OperationsOf(now, schema) + operations];
    forall other ensures OperationsOf(next, other) == OperationsOf(all, other) {
      MergedOperations(changes, done, other);
      MergedOperations(changes, done[schema := operations], other);
    }
    SameChanges(next, all);
  }

  method MergeOperations(operations: map<Bytes, WriteOperation>, newer: map<Bytes, WriteOperation>)
    returns (merged: map<Bytes, WriteOperation>)
    ensures merged == operations + newer
  {
    merged := operations;
    var keys := newer.Keys;
    while keys != {}
      invariant keys <= newer.Keys
      invariant merged == operations + Rest(newer, keys)
      decreases keys
    {
      var key :| key in keys;
      merged := merged[key := newer[key]];
      keys := keys - {key};
    }
    assert Rest(newer, {}) == newer;
  }
}
