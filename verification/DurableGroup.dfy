/** The store group as it runs: containers replaced by a load, commands that change them in place,
    snapshots put back by nested commands, and a flush that compares and swaps row by row.

    It is proved to do what `DurableStore` says; that definition has no version conflicts, so under an
    exclusive transaction the compare-and-swap never fails.
  */
module DurableGroup {
  import opened Prelude
  import opened Codec
  import opened DurableStore
  import opened DurableRefinement

  // ---------- One entry at a time ----------

  lemma {:induction false} ValueAtAppended(entries: Entries, e: Entry, key: Key)
    ensures HasKey(entries + [e], key) <==> HasKey(entries, key) || e.key == key
    ensures HasKey(entries, key) ==> ValueAt(entries + [e], key) == ValueAt(entries, key)
    ensures !HasKey(entries, key) && e.key == key ==>
      HasKey(entries + [e], key) && ValueAt(entries + [e], key) == e.value
  {
    var all := entries + [e];
    if HasKey(entries, key) {
      var i :| 0 <= i < |entries| && entries[i].key == key;
      assert all[i].key == key;
    }
    assert all[|entries|] == e;
    if entries != [] {
      ValueAtAppended(entries[1..], e, key);
      assert all[1..] == entries[1..] + [e];
    }
  }

  lemma UnstoredAppended(rows: seq<Row>, entries: Entries, e: Entry)
    ensures Unstored(rows, entries + [e]) == Unstored(rows, entries) + (if HasRow(rows, e.key) then [] else [e])
  {
    assert (entries + [e])[..|entries|] == entries;
  }

  /** The rows after the entries so far have been written. */
  ghost predicate Written(
    layout: Layout, name: Name, style: Style, schema: Schema, rows: seq<Row>, entries: Entries, current: seq<Row>)
  {
    var added := Unstored(rows, entries);
    && |current| == |rows| + |added|
    && (forall i {:trigger rows[i]} | 0 <= i < |rows| ::
        current[i] == FinalRow(layout, name, style, schema, rows[i], entries))
    && (forall i {:trigger added[i]} | 0 <= i < |added| :: PayloadOf(layout, schema, added[i].value).Some?
          && current[|rows| + i] == NewRow(layout, name, schema, added[i]))
  }

  /** A row whose key is not this entry's is not touched by it. */
  lemma OtherRowStays(layout: Layout, name: Name, style: Style, schema: Schema, row: Row, entries: Entries, e: Entry)
    requires row.key != e.key
    ensures FinalRow(layout, name, style, schema, row, entries + [e])
      == FinalRow(layout, name, style, schema, row, entries)
  {
    ValueAtAppended(entries, e, row.key);
  }

  lemma AppendWrites(
    layout: Layout, name: Name, style: Style, schema: Schema, rows: seq<Row>, entries: Entries, e: Entry,
    current: seq<Row>)
    requires Written(layout, name, style, schema, rows, entries, current)
    requires !HasRow(rows, e.key) && PayloadOf(layout, schema, e.value).Some?
    ensures Written(layout, name, style, schema, rows, entries + [e], current + [NewRow(layout, name, schema, e)])
  {
    UnstoredAppended(rows, entries, e);
    forall i | 0 <= i < |rows|
      ensures FinalRow(layout, name, style, schema, rows[i], entries + [e])
        == FinalRow(layout, name, style, schema, rows[i], entries)
    {
      OtherRowStays(layout, name, style, schema, rows[i], entries, e);
    }
  }

  /** The row of a key not seen before becomes what this entry alone makes of it. */
  lemma FirstWrite(layout: Layout, name: Name, style: Style, schema: Schema, row: Row, entries: Entries, e: Entry)
    requires row.key == e.key && !HasKey(entries, e.key)
    ensures FinalRow(layout, name, style, schema, row, entries) == row
    ensures FinalRow(layout, name, style, schema, row, entries + [e]) == FinalRow(layout, name, style, schema, row, [e])
  {
    ValueAtAppended(entries, e, e.key);
    ValueAtAppended([], e, e.key);
    assert [] + [e] == [e];
  }

  /** Writing a stored entry changes at most the row that holds its key. */
  lemma UpdateWrites(
    layout: Layout, name: Name, style: Style, schema: Schema, rows: seq<Row>, entries: Entries, e: Entry,
    current: seq<Row>, i: nat, row: Row)
    requires Written(layout, name, style, schema, rows, entries, current) && DistinctRows(rows)
    requires i < |rows| && rows[i].key == e.key && !HasKey(entries, e.key)
    requires row == FinalRow(layout, name, style, schema, rows[i], [e])
    ensures current[i] == rows[i]
    ensures Written(layout, name, style, schema, rows, entries + [e], current[i := row])
  {
    UnstoredAppended(rows, entries, e);
    assert HasRow(rows, e.key);
    assert Unstored(rows, entries + [e]) == Unstored(rows, entries);
    assert current[i] == FinalRow(layout, name, style, schema, rows[i], entries);
    FirstWrite(layout, name, style, schema, rows[i], entries, e);
    forall j | 0 <= j < |rows| && j != i
      ensures FinalRow(layout, name, style, schema, rows[j], entries + [e])
        == FinalRow(layout, name, style, schema, rows[j], entries)
    {
      OtherRowStays(layout, name, style, schema, rows[j], entries, e);
    }
  }

  lemma WrittenIsFlushed(
    layout: Layout, name: Name, style: Style, schema: Schema, rows: seq<Row>, entries: Entries, current: seq<Row>)
    requires Written(layout, name, style, schema, rows, entries, current)
    requires MayFlush(layout, style, schema, rows, entries)
    ensures Flushed(layout, name, style, schema, rows, entries) == Some(current)
  {
    FlushedAt(layout, name, style, schema, rows, entries);
    var added := Unstored(rows, entries);
    var after := Flushed(layout, name, style, schema, rows, entries).value;
    forall i | 0 <= i < |rows| ensures after[i] == current[i] {
      assert rows[i] == rows[i];
    }
    forall i | |rows| <= i < |after| ensures after[i] == current[i] {
      var k := i - |rows|;
      assert added[k] == added[k] && after[|rows| + k] == NewRow(layout, name, schema, added[k]);
    }
    assert after == current;
  }

  // ---------- Flushing a collection ----------

  method FindRow(rows: seq<Row>, key: Key) returns (found: Option<nat>)
    ensures found.Some? <==> HasRow(rows, key)
    ensures found.Some? ==> found.value < |rows| && rows[found.value].key == key
  {
    var i := 0;
    while i < |rows|
      invariant 0 <= i <= |rows|
      invariant forall j | 0 <= j < i :: rows[j].key != key
    {
      if rows[i].key == key {
        return Some(i);
      }
      i := i + 1;
    }
    return None;
  }

  /** The column a row's update is guarded by. */
  function Stamp(style: Style, row: Row): int { if style == Dictionary then row.revision else row.version }

  /** `UPDATE ... WHERE key = ? AND version = ?` (or revision): it changes the one row that still carries the
      stamp seen, and finds none exactly when there is no such row. */
  method CompareAndSwap(current: seq<Row>, key: Key, style: Style, seen: Row, row: Row)
    returns (changed: Option<seq<Row>>)
    requires DistinctRows(current)
    ensures changed.Some? <==> exists i ::
              0 <= i < |current| && current[i].key == key && Stamp(style, current[i]) == Stamp(style, seen)
    ensures forall i | 0 <= i < |current| && current[i].key == key && Stamp(style, current[i]) == Stamp(style, seen) ::
              changed == Some(current[i := row])
  {
    var found := FindRow(current, key);
    if found.None? {
      return None;
    }
    var i := found.value;
    if Stamp(style, current[i]) != Stamp(style, seen) {
      return None;
    }
    return Some(current[i := row]);
  }

  /** What the flush has established after the entries so far. */
  ghost predicate Progress(
    layout: Layout, name: Name, style: Style, schema: Schema, rows: seq<Row>, entries: Entries, current: seq<Row>)
  {
    && Written(layout, name, style, schema, rows, entries, current)
    && Writable(layout, schema, Encoded(style, rows, entries))
    && (style == Sequence ==>
          forall i | 0 <= i < |entries| && HasRow(rows, entries[i].key) :: Unchanged(layout, schema, rows, entries[i]))
  }

  lemma NoProgressYet(layout: Layout, name: Name, style: Style, schema: Schema, rows: seq<Row>)
    ensures Progress(layout, name, style, schema, rows, [], rows)
  {
  }

  /** Keys stay unique while rows are written. */
  lemma WrittenDistinct(
    layout: Layout, name: Name, style: Style, schema: Schema, rows: seq<Row>, entries: Entries, current: seq<Row>)
    requires Written(layout, name, style, schema, rows, entries, current) && DistinctRows(rows) && DistinctKeys(entries)
    ensures DistinctRows(current)
  {
    var added := Unstored(rows, entries);
    UnstoredDistinct(rows, entries);
    UnstoredApart(rows, entries);
    forall i | 0 <= i < |current|
      ensures current[i].key == (if i < |rows| then rows[i].key else added[i - |rows|].key)
    {
      if i < |rows| {
        assert rows[i] == rows[i];
      } else {
        var k := i - |rows|;
        assert added[k] == added[k] && current[|rows| + k] == NewRow(layout, name, schema, added[k]);
      }
    }
  }

  /** An entry the rows already hold, with the row it leaves. */
  lemma StoredProgress(
    layout: Layout, name: Name, style: Style, schema: Schema, rows: seq<Row>, entries: Entries, e: Entry,
    current: seq<Row>, i: nat, row: Row)
    requires Progress(layout, name, style, schema, rows, entries, current) && DistinctRows(rows)
    requires i < |rows| && rows[i].key == e.key && !HasKey(entries, e.key)
    requires row == FinalRow(layout, name, style, schema, rows[i], [e])
    requires style != Audit ==> PayloadOf(layout, schema, e.value).Some?
    requires style == Sequence ==> PayloadOf(layout, schema, e.value) == Some(rows[i].payload)
    ensures i < |current| && current[i] == rows[i]
    ensures Progress(layout, name, style, schema, rows, entries + [e], current[i := row])
  {
    UpdateWrites(layout, name, style, schema, rows, entries, e, current, i, row);
    EncodedAppended(style, rows, entries, e);
    assert HasRow(rows, e.key);
    assert style == Sequence ==> Unchanged(layout, schema, rows, e);
  }

  lemma NewProgress(
    layout: Layout, name: Name, style: Style, schema: Schema, rows: seq<Row>, entries: Entries, e: Entry,
    current: seq<Row>)
    requires Progress(layout, name, style, schema, rows, entries, current)
    requires !HasRow(rows, e.key) && !HasKey(entries, e.key) && PayloadOf(layout, schema, e.value).Some?
    ensures Progress(layout, name, style, schema, rows, entries + [e], current + [NewRow(layout, name, schema, e)])
  {
    AppendWrites(layout, name, style, schema, rows, entries, e, current);
    EncodedAppended(style, rows, entries, e);
  }

  lemma StoredRow(layout: Layout, name: Name, style: Style, schema: Schema, row: Row, e: Entry)
    requires row.key == e.key
    ensures style == Audit || style == Sequence ==> FinalRow(layout, name, style, schema, row, [e]) == row
    ensures style != Audit && style != Sequence && PayloadOf(layout, schema, e.value).Some? ==>
      var payload := PayloadOf(layout, schema, e.value).value;
      FinalRow(layout, name, style, schema, row, [e])
        == if payload == row.payload then row
           else row.(payload := payload, version := layout.versionOf(name, e.value),
                     revision := if style == Dictionary then row.revision + 1 else row.revision)
  {
    assert [e][0].key == row.key;
    assert HasKey([e], row.key) && ValueAt([e], row.key) == e.value;
  }

  /** Skip, refuse, update or insert one entry. */
  method FlushEntry(
    layout: Layout, name: Name, style: Style, schema: Schema, rows: seq<Row>, ghost before: Entries, e: Entry,
    current: seq<Row>)
    returns (after: Option<seq<Row>>)
    requires DistinctRows(rows) && DistinctKeys(before) && !HasKey(before, e.key)
    requires Progress(layout, name, style, schema, rows, before, current)
    ensures after.Some? ==> Progress(layout, name, style, schema, rows, before + [e], after.value)
    ensures after.None? ==> Refuses(layout, style, schema, rows, e)
  {
    var stored := FindRow(rows, e.key);
    if style == Audit && stored.Some? {
      StoredRow(layout, name, style, schema, rows[stored.value], e);
      StoredProgress(layout, name, style, schema, rows, before, e, current, stored.value, rows[stored.value]);
      assert current[stored.value := rows[stored.value]] == current;
      return Some(current);
    }
    var payload := layout.encode(schema, e.value);
    if payload.None? {
      return None;
    }
    if stored.None? {
      NewProgress(layout, name, style, schema, rows, before, e, current);
      return Some(current + [NewRow(layout, name, schema, e)]);
    }
    var seen := rows[stored.value];
    StoredRow(layout, name, style, schema, seen, e);
    if seen.payload == payload.value {
      StoredProgress(layout, name, style, schema, rows, before, e, current, stored.value, seen);
      assert current[stored.value := seen] == current;
      return Some(current);
    }
    if style == Sequence {
      assert rows[stored.value].key == e.key && PayloadOf(layout, schema, e.value) != Some(rows[stored.value].payload);
      return None;
    }
    var row := seen.(payload := payload.value, version := layout.versionOf(name, e.value),
                     revision := if style == Dictionary then seen.revision + 1 else seen.revision);
    StoredProgress(layout, name, style, schema, rows, before, e, current, stored.value, row);
    WrittenDistinct(layout, name, style, schema, rows, before, current);
    after := CompareAndSwap(current, e.key, style, seen, row);
  }

  /** Why a flush stops at an entry: it cannot be encoded, or it would rewrite history. */
  ghost predicate Refuses(layout: Layout, style: Style, schema: Schema, rows: seq<Row>, e: Entry) {
    || (PayloadOf(layout, schema, e.value).None? && (style == Audit ==> !HasRow(rows, e.key)))
    || (style == Sequence && exists i :: 0 <= i < |rows| && rows[i].key == e.key
                                    && PayloadOf(layout, schema, e.value) != Some(rows[i].payload))
  }

  lemma RefusedIsNotFlushed(
    layout: Layout, name: Name, style: Style, schema: Schema, rows: seq<Row>, entries: Entries, k: nat)
    requires DistinctKeys(entries) && k < |entries| && Refuses(layout, style, schema, rows, entries[k])
    ensures Flushed(layout, name, style, schema, rows, entries).None?
  {
    if PayloadOf(layout, schema, entries[k].value).None? && (style == Audit ==> !HasRow(rows, entries[k].key)) {
      NotWritable(layout, style, schema, rows, entries, k);
    } else {
      var i :| 0 <= i < |rows| && rows[i].key == entries[k].key
               && PayloadOf(layout, schema, entries[k].value) != Some(rows[i].payload);
      HistoryChanged(layout, schema, rows, entries, k, i);
    }
  }

  method SomethingDeleted(rows: seq<Row>, entries: Entries) returns (deleted: bool)
    ensures deleted <==> !NothingDeleted(rows, entries)
  {
    var i := 0;
    while i < |rows|
      invariant 0 <= i <= |rows|
      invariant forall j | 0 <= j < i :: HasKey(entries, rows[j].key)
    {
      if !HasKey(entries, rows[i].key) {
        return true;
      }
      i := i + 1;
    }
    return false;
  }

  method FlushCollection(layout: Layout, name: Name, style: Style, schema: Schema, rows: seq<Row>, entries: Entries)
    returns (flushed: Option<seq<Row>>)
    requires DistinctRows(rows) && DistinctKeys(entries)
    ensures flushed == Flushed(layout, name, style, schema, rows, entries)
  {
    var current := rows;
    NoProgressYet(layout, name, style, schema, rows);
    var k := 0;
    while k < |entries|
      invariant 0 <= k <= |entries|
      invariant Progress(layout, name, style, schema, rows, entries[..k], current)
    {
      assert entries[..k + 1] == entries[..k] + [entries[k]];
      NewKey(entries, k);
      var after := FlushEntry(layout, name, style, schema, rows, entries[..k], entries[k], current);
      if after.None? {
        RefusedIsNotFlushed(layout, name, style, schema, rows, entries, k);
        return None;
      }
      current := after.value;
      k := k + 1;
    }
    assert entries[..k] == entries;
    if style == Sequence || style == Dictionary {
      var deleted := SomethingDeleted(rows, entries);
      if deleted {
        return None;
      }
    }
    ProgressIsFlushed(layout, name, style, schema, rows, entries, current);
    return Some(current);
  }

  lemma ProgressIsFlushed(
    layout: Layout, name: Name, style: Style, schema: Schema, rows: seq<Row>, entries: Entries, current: seq<Row>)
    requires DistinctRows(rows) && DistinctKeys(entries)
    requires Progress(layout, name, style, schema, rows, entries, current)
    requires style == Sequence || style == Dictionary ==> NothingDeleted(rows, entries)
    ensures Flushed(layout, name, style, schema, rows, entries) == Some(current)
  {
    HistoryKept(layout, style, schema, rows, entries);
    WrittenIsFlushed(layout, name, style, schema, rows, entries, current);
  }

  lemma NewKey(entries: Entries, k: nat)
    requires DistinctKeys(entries) && k < |entries|
    ensures !HasKey(entries[..k], entries[k].key)
  {
  }

  ghost predicate Unchanged(layout: Layout, schema: Schema, rows: seq<Row>, e: Entry) {
    forall i | 0 <= i < |rows| && rows[i].key == e.key :: PayloadOf(layout, schema, e.value) == Some(rows[i].payload)
  }

  lemma EncodedAppended(style: Style, rows: seq<Row>, entries: Entries, e: Entry)
    ensures Encoded(style, rows, entries + [e])
         == Encoded(style, rows, entries) + (if style == Audit && HasRow(rows, e.key) then [] else [e])
  {
    UnstoredAppended(rows, entries, e);
  }

  lemma NotWritable(layout: Layout, style: Style, schema: Schema, rows: seq<Row>, entries: Entries, k: nat)
    requires k < |entries| && PayloadOf(layout, schema, entries[k].value).None?
    requires style == Audit ==> !HasRow(rows, entries[k].key)
    ensures !Writable(layout, schema, Encoded(style, rows, entries))
  {
    if style == Audit {
      UnstoredMembers(rows, entries);
      assert entries[k] in entries && entries[k] in Unstored(rows, entries);
    }
  }

  lemma HistoryChanged(layout: Layout, schema: Schema, rows: seq<Row>, entries: Entries, k: nat, i: nat)
    requires DistinctKeys(entries) && k < |entries| && i < |rows| && rows[i].key == entries[k].key
    requires PayloadOf(layout, schema, entries[k].value) != Some(rows[i].payload)
    ensures !HistoryIntact(layout, schema, rows, entries)
  {
    ValueIsAt(entries, k);
  }

  lemma HistoryKept(layout: Layout, style: Style, schema: Schema, rows: seq<Row>, entries: Entries)
    requires DistinctKeys(entries)
    requires style == Sequence ==>
      forall i | 0 <= i < |entries| && HasRow(rows, entries[i].key) :: Unchanged(layout, schema, rows, entries[i])
    ensures style == Sequence ==> HistoryIntact(layout, schema, rows, entries)
  {
    if style == Sequence {
      forall i | 0 <= i < |rows| && HasKey(entries, rows[i].key)
        ensures PayloadOf(layout, schema, ValueAt(entries, rows[i].key)) == Some(rows[i].payload)
      {
        var k :| 0 <= k < |entries| && entries[k].key == rows[i].key;
        ValueIsAt(entries, k);
        assert HasRow(rows, entries[k].key);
        assert Unchanged(layout, schema, rows, entries[k]);
      }
    }
  }

  // ---------- The group ----------

  class StoreGroup {
    const layout: Layout
    var tables: map<Name, seq<Row>>
    var raw: map<string, string>
    var containers: Containers
    var depth: nat

    function Stored(): (db: Database)
      reads this
    {
      Database(tables, raw)
    }

    constructor (layout: Layout, db: Database)
      ensures this.layout == layout && Stored() == db && depth == 0
    {
      this.layout, tables, raw, containers, depth := layout, db.tables, db.raw, map[], 0;
    }

    /** Commands as they nest: a nested command's failure restores the containers, not the raw part. */
    method Execute(p: Program) returns (ok: bool)
      modifies this`containers, this`raw, this`depth
      ensures (ok, Memory(containers, raw)) == Run(layout, p, old(Memory(containers, raw)))
      ensures depth == old(depth)
      decreases p
    {
      match p
      case Put(name, v) =>
        if name !in containers || name !in layout.style {
          return false;
        }
        var key := KeyFor(layout, name, layout.style[name], |containers[name]|, v);
        if layout.style[name] == Audit && HasKey(containers[name], key) {
          return false;
        }
        containers := containers[name := PutAt(containers[name], key, v)];
        return true;
      case Rewrite(name, at, v) =>
        if name !in containers || at >= |containers[name]| {
          return false;
        }
        var entries := containers[name];
        containers := containers[name := entries[at := Entry(entries[at].key, v)]];
        return true;
      case Remove(name, key) =>
        if name !in containers || !HasKey(containers[name], key) {
          return false;
        }
        containers := containers[name := Without(containers[name], key)];
        return true;
      case WriteRaw(column, text) =>
        raw := raw[column := text];
        return true;
      case Raise =>
        return false;
      case Then(first, second) =>
        ok := Execute(first);
        if ok {
          ok := Execute(second);
        }
      case Nested(body) =>
        var snapshot := containers;
        depth := depth + 1;
        ok := Execute(body);
        if !ok {
          containers := snapshot;
        }
        depth := depth - 1;
      case Try(body) =>
        var ignored := Execute(body);
        return true;
    }

    /** Reads every row before it replaces any container. */
    method LoadAll() returns (loaded: Option<Containers>)
      requires Described(layout, tables)
      ensures loaded == Load(layout, tables)
    {
      var all, read: Containers := tables, map[];
      var rest := all.Keys;
      while rest != {}
        invariant rest <= all.Keys && read.Keys == all.Keys - rest
        invariant forall n {:trigger read[n]} | n in read :: OneLoaded(layout, all, n, read[n])
        decreases |rest|
      {
        var n :| n in rest;
        var entries := LoadEntries(layout, n, layout.style[n], layout.schema[n], all[n]);
        if entries.None? {
          return None;
        }
        read := read[n := entries.value];
        rest := rest - {n};
      }
      LoadedIs(layout, all, read);
      return Some(read);
    }

    method FlushAll() returns (flushed: Option<map<Name, seq<Row>>>)
      requires Described(layout, tables) && containers.Keys == tables.Keys
      requires AllDistinct(tables, containers)
      ensures flushed == Flush(layout, tables, containers)
    {
      var before, after, written: map<Name, seq<Row>> := tables, containers, map[];
      var rest := before.Keys;
      while rest != {}
        invariant rest <= before.Keys && written.Keys == before.Keys - rest
        invariant forall n {:trigger written[n]} | n in written :: OneFlushed(layout, before, after, n, written[n])
        decreases |rest|
      {
        var n :| n in rest;
        assert DistinctKeys(after[n]);
        var rows := FlushCollection(layout, n, layout.style[n], layout.schema[n], before[n], after[n]);
        if rows.None? {
          return None;
        }
        written := written[n := rows.value];
        rest := rest - {n};
      }
      FlushedIs(layout, before, after, written);
      return Some(written);
    }

    /** Flush and commit what ran well, or roll back. */
    method Commit(ran: bool, before: Database) returns (ok: bool)
      requires Described(layout, before.tables) && before.tables == tables && containers.Keys == tables.Keys
      requires AllDistinct(tables, containers)
      modifies this`tables, this`raw
      ensures (ok, Stored()) == Finish(layout, before, (ran, old(Memory(containers, raw))))
    {
      if ran {
        var flushed := FlushAll();
        if flushed.Some? {
          tables := flushed.value;
          return true;
        }
      }
      raw := before.raw;
      return false;
    }

    /** Begin, load, run, and commit or roll back. */
    method Transaction(p: Program) returns (ok: bool)
      requires depth == 0 && Described(layout, tables)
      requires TablesDistinct(tables)
      modifies this
      ensures (ok, Stored()) == Transact(layout, old(Stored()), p)
      ensures depth == 0
    {
      var before := Stored();
      var loaded := LoadAll();
      if loaded.None? {
        return false;
      }
      LoadedTransacts(layout, before, p, loaded.value);
      containers := loaded.value;
      depth := 1;
      var ran := Execute(p);
      depth := 0;
      ok := Commit(ran, before);
    }
  }

  ghost predicate OneLoaded(layout: Layout, tables: map<Name, seq<Row>>, n: Name, entries: Entries) {
    && n in tables && n in layout.style && n in layout.schema
    && LoadEntries(layout, n, layout.style[n], layout.schema[n], tables[n]) == Some(entries)
  }

  lemma LoadedIs(layout: Layout, tables: map<Name, seq<Row>>, loaded: Containers)
    requires Described(layout, tables) && loaded.Keys == tables.Keys
    requires forall n | n in loaded :: OneLoaded(layout, tables, n, loaded[n])
    ensures Load(layout, tables) == Some(loaded)
  {
    forall n | n in tables
      ensures LoadEntries(layout, n, layout.style[n], layout.schema[n], tables[n]) == Some(loaded[n])
    {
      assert OneLoaded(layout, tables, n, loaded[n]);
    }
    assert Load(layout, tables).value == loaded;
  }

  ghost predicate OneFlushed(
    layout: Layout, tables: map<Name, seq<Row>>, containers: Containers, n: Name, rows: seq<Row>)
  {
    && n in tables && n in containers && n in layout.style && n in layout.schema
    && Flushed(layout, n, layout.style[n], layout.schema[n], tables[n], containers[n]) == Some(rows)
  }

  lemma FlushedIs(layout: Layout, tables: map<Name, seq<Row>>, containers: Containers, written: map<Name, seq<Row>>)
    requires Described(layout, tables) && containers.Keys == tables.Keys && written.Keys == tables.Keys
    requires forall n | n in written :: OneFlushed(layout, tables, containers, n, written[n])
    ensures Flush(layout, tables, containers) == Some(written)
  {
    forall n | n in tables
      ensures Flushed(layout, n, layout.style[n], layout.schema[n], tables[n], containers[n]) == Some(written[n])
    {
      assert OneFlushed(layout, tables, containers, n, written[n]);
    }
    assert Flush(layout, tables, containers).value == written;
  }

  ghost predicate TablesDistinct(tables: map<Name, seq<Row>>) {
    forall n {:trigger DistinctRows(tables[n])} | n in tables :: DistinctRows(tables[n])
  }

  /** No table and no container holds a key twice. */
  ghost predicate AllDistinct(tables: map<Name, seq<Row>>, containers: Containers)
    requires containers.Keys == tables.Keys
  {
    forall n {:trigger DistinctKeys(containers[n])} | n in tables ::
      DistinctRows(tables[n]) && DistinctKeys(containers[n])
  }

  lemma LoadedTransacts(layout: Layout, db: Database, p: Program, loaded: Containers)
    requires Described(layout, db.tables) && Load(layout, db.tables) == Some(loaded)
    requires TablesDistinct(db.tables)
    ensures var ran := Run(layout, p, Memory(loaded, db.raw));
      && Transact(layout, db, p) == Finish(layout, db, ran)
      && ran.1.containers.Keys == db.tables.Keys
      && AllDistinct(db.tables, ran.1.containers)
  {
    LoadedDistinct(layout, db);
    KeysStayDistinct(layout, p, Memory(loaded, db.raw));
  }

  lemma PutStaysDistinct(entries: Entries, key: Key, v: Value)
    requires DistinctKeys(entries)
    ensures DistinctKeys(PutAt(entries, key, v))
  {
    PutAtPlaces(entries, key, v);
    forall i | 0 <= i < |entries| && !HasKey(entries, key) ensures entries[i].key != key {
    }
  }

  lemma RemoveStaysDistinct(entries: Entries, key: Key)
    requires DistinctKeys(entries) && HasKey(entries, key)
    ensures DistinctKeys(Without(entries, key))
  {
    var i :| 0 <= i < |entries| && entries[i].key == key;
    WithoutSkips(entries, i);
  }

  ghost predicate ContainersDistinct(containers: Containers) {
    forall n {:trigger DistinctKeys(containers[n])} | n in containers :: DistinctKeys(containers[n])
  }

  /** Whatever a program does, no container ever holds a key twice. */
  lemma {:induction false} KeysStayDistinct(layout: Layout, p: Program, m: Memory)
    requires ContainersDistinct(m.containers)
    ensures var after := Run(layout, p, m).1.containers; after.Keys == m.containers.Keys && ContainersDistinct(after)
    decreases p
  {
    match p
    case Put(name, v) =>
      if Run(layout, p, m).0 {
        var entries := m.containers[name];
        PutStaysDistinct(entries, KeyFor(layout, name, layout.style[name], |entries|, v), v);
      }
    case Rewrite(name, at, v) =>
      if Run(layout, p, m).0 {
        var entries := m.containers[name];
        assert DistinctKeys(entries);
        assert DistinctKeys(entries[at := Entry(entries[at].key, v)]);
      }
    case Remove(name, key) =>
      if Run(layout, p, m).0 {
        RemoveStaysDistinct(m.containers[name], key);
      }
    case Then(first, second) =>
      KeysStayDistinct(layout, first, m);
      var (ok, m1) := Run(layout, first, m);
      if ok {
        KeysStayDistinct(layout, second, m1);
      }
    case Nested(body) => KeysStayDistinct(layout, body, m);
    case Try(body) => KeysStayDistinct(layout, body, m);
    case _ =>
  }

  lemma LoadedDistinct(layout: Layout, db: Database)
    requires Readable(layout, db)
    ensures ContainersDistinct(Load(layout, db.tables).value)
  {
    LoadedAreWellKeyed(layout, db);
    var containers := Load(layout, db.tables).value;
    forall n | n in containers ensures DistinctKeys(containers[n]) {
      assert WellKeyed(layout, n, layout.style[n], containers[n]);
    }
  }
}
