/** A transaction of the durable store group is one atomic update of the record containers: what a
    later load returns, exactly when it returns what was executed, and what a failure leaves behind,
    at the outermost transaction and inside a nested command that is caught. */
module DurableRefinement {
  import opened Prelude
  import opened Codec
  import opened CodecRoundTrip
  import opened DurableStore

  // ---------- What a later load should return ----------

  /** The value as its own encoding reads back; equal to it as `same` compares. */
  ghost function Reread(layout: Layout, schema: Schema, v: Value): (w: Value)
    requires Lossless(layout) && PayloadOf(layout, schema, v).Some?
    ensures layout.same(w, v) && layout.decode(schema, PayloadOf(layout, schema, v).value) == Some(w)
  {
    layout.decode(schema, PayloadOf(layout, schema, v).value).value
  }

  /** The container with every value re-read, except for the stored audit records, which no flush encodes. */
  ghost function Expected(layout: Layout, style: Style, schema: Schema, before: Entries, entries: Entries): Entries
    requires Lossless(layout)
    requires forall i | 0 <= i < |entries| && (style != Audit || i >= |before|) ::
      PayloadOf(layout, schema, entries[i].value).Some?
  {
    seq(|entries|, i requires 0 <= i < |entries| =>
      Entry(
        entries[i].key,
        if style == Audit && i < |before| then entries[i].value else Reread(layout, schema, entries[i].value)))
  }

  /** Loaded keys come first in their loaded order, updated records keep the columns that only an insert
      writes, and stored audit records are the loaded ones. */
  ghost predicate Placed(layout: Layout, name: Name, style: Style, before: Entries, entries: Entries) {
    && |before| <= |entries|
    && (forall i | 0 <= i < |before| ::
          && entries[i].key == before[i].key
          && (style == Entities || style == Dictionary ==>
                layout.fixedOf(name, entries[i].value) == layout.fixedOf(name, before[i].value))
          && (style == Audit ==> entries[i].value == before[i].value))
  }

  ghost predicate Loaded(layout: Layout, name: Name, style: Style, schema: Schema, rows: seq<Row>, before: Entries) {
    && DistinctRows(rows)
    && LoadEntries(layout, name, style, schema, rows) == Some(before)
  }

  lemma LoadedAt(layout: Layout, name: Name, style: Style, schema: Schema, rows: seq<Row>, before: Entries)
    requires Loaded(layout, name, style, schema, rows, before)
    ensures |before| == |rows|
    ensures forall i | 0 <= i < |rows| ::
      LoadRow(layout, name, style, schema, i, rows[i]) == Some(before[i]) && before[i].key == rows[i].key
    ensures WellKeyed(layout, name, style, before)
  {
    var parts := seq(|rows|, i requires 0 <= i < |rows| => LoadRow(layout, name, style, schema, i, rows[i]));
    forall i | 0 <= i < |rows|
      ensures LoadRow(layout, name, style, schema, i, rows[i]) == Some(before[i]) && before[i].key == rows[i].key
    {
      assert parts[i].Some?;
    }
  }

  lemma LoadsAs(layout: Layout, name: Name, style: Style, schema: Schema, rows: seq<Row>, entries: Entries)
    requires |entries| == |rows|
    requires forall i | 0 <= i < |rows| :: LoadRow(layout, name, style, schema, i, rows[i]) == Some(entries[i])
    ensures LoadEntries(layout, name, style, schema, rows) == Some(entries)
  {
    var parts := seq(|rows|, i requires 0 <= i < |rows| => LoadRow(layout, name, style, schema, i, rows[i]));
    assert All(parts).value == entries;
  }

  // ---------- Where keys are ----------

  ghost predicate SamePlaces(rows: seq<Row>, entries: Entries) {
    |rows| <= |entries| && forall i | 0 <= i < |rows| :: entries[i].key == rows[i].key
  }

  lemma {:induction false} ValueIsAt(entries: Entries, i: nat)
    requires DistinctKeys(entries) && i < |entries|
    ensures HasKey(entries, entries[i].key) && ValueAt(entries, entries[i].key) == entries[i].value
  {
    if entries[0].key != entries[i].key {
      ValueIsAt(entries[1..], i - 1);
    }
  }

  /** When stored keys come first, the unstored entries are the rest. */
  lemma {:induction false} UnstoredIsRest(rows: seq<Row>, entries: Entries, n: nat)
    requires DistinctKeys(entries) && SamePlaces(rows, entries) && |rows| <= n <= |entries|
    ensures Unstored(rows, entries[..n]) == entries[|rows|..n]
    decreases n
  {
    if n == |rows| {
      AllStored(rows, entries[..n]);
    } else {
      UnstoredIsRest(rows, entries, n - 1);
      assert entries[..n][..n - 1] == entries[..n - 1];
      forall i | 0 <= i < |rows| ensures rows[i].key != entries[n - 1].key {
        assert entries[i].key != entries[n - 1].key;
      }
      assert Unstored(rows, entries[..n]) == Unstored(rows, entries[..n - 1]) + [entries[n - 1]];
      assert entries[|rows|..n] == entries[|rows|..n - 1] + [entries[n - 1]];
    }
  }

  lemma {:induction false} AllStored(rows: seq<Row>, entries: Entries)
    requires forall i | 0 <= i < |entries| :: HasRow(rows, entries[i].key)
    ensures Unstored(rows, entries) == []
  {
    if entries != [] {
      AllStored(rows, entries[..|entries| - 1]);
    }
  }

  lemma AddedAreEncoded(layout: Layout, style: Style, schema: Schema, rows: seq<Row>, entries: Entries)
    requires MayFlush(layout, style, schema, rows, entries)
    ensures Writable(layout, schema, Unstored(rows, entries))
  {
    UnstoredMembers(rows, entries);
    var added := Unstored(rows, entries);
    forall i | 0 <= i < |added| ensures PayloadOf(layout, schema, added[i].value).Some? {
      assert added[i] in added;
    }
  }

  lemma FlushedAt(layout: Layout, name: Name, style: Style, schema: Schema, rows: seq<Row>, entries: Entries)
    requires MayFlush(layout, style, schema, rows, entries)
    ensures var after := Flushed(layout, name, style, schema, rows, entries).value;
      var added := Unstored(rows, entries);
      && |after| == |rows| + |added|
      && (forall i | 0 <= i < |rows| :: after[i] == FinalRow(layout, name, style, schema, rows[i], entries))
      && (forall i | 0 <= i < |added| :: PayloadOf(layout, schema, added[i].value).Some?
            && after[|rows| + i] == NewRow(layout, name, schema, added[i]))
  {
    AddedAreEncoded(layout, style, schema, rows, entries);
  }

  // ---------- Loading what was flushed ----------

  lemma NewRowLoads(layout: Layout, name: Name, style: Style, schema: Schema, position: nat, e: Entry)
    requires Lossless(layout) && RespectsEquality(layout) && PayloadOf(layout, schema, e.value).Some?
    requires e.key == KeyFor(layout, name, style, position, e.value)
    ensures LoadRow(layout, name, style, schema, position, NewRow(layout, name, schema, e))
         == Some(Entry(e.key, Reread(layout, schema, e.value)))
  {
    var w := Reread(layout, schema, e.value);
    assert layout.same(w, e.value);
  }

  /** An updated row loads as the new value exactly when the fixed columns still fit. */
  lemma UpdatedRowLoads(
    layout: Layout, name: Name, style: Style, schema: Schema, position: nat, row: Row, stored: Entry, entries: Entries,
    i: nat)
    requires Lossless(layout) && RespectsEquality(layout) && (style == Entities || style == Dictionary)
    requires LoadRow(layout, name, style, schema, position, row) == Some(stored)
    requires DistinctKeys(entries) && i < |entries| && entries[i].key == row.key
    requires entries[i].key == KeyFor(layout, name, style, i, entries[i].value)
    requires PayloadOf(layout, schema, entries[i].value).Some?
    ensures LoadRow(layout, name, style, schema, position, FinalRow(layout, name, style, schema, row, entries))
              == Some(Entry(row.key, Reread(layout, schema, entries[i].value)))
            <==> layout.fixedOf(name, entries[i].value) == layout.fixedOf(name, stored.value)
  {
    ValueIsAt(entries, i);
    var w := Reread(layout, schema, entries[i].value);
    assert layout.same(w, entries[i].value);
  }

  lemma SequenceRowLoads(
    layout: Layout, name: Name, schema: Schema, position: nat, row: Row, stored: Entry, entries: Entries, i: nat)
    requires Lossless(layout)
    requires LoadRow(layout, name, Sequence, schema, position, row) == Some(stored)
    requires DistinctKeys(entries) && i < |entries| && entries[i].key == row.key
    requires PayloadOf(layout, schema, entries[i].value) == Some(row.payload)
    ensures stored == Entry(row.key, Reread(layout, schema, entries[i].value))
  {
  }

  ghost predicate Flushes(
    layout: Layout, name: Name, style: Style, schema: Schema, rows: seq<Row>, before: Entries, entries: Entries)
  {
    && Lossless(layout) && RespectsEquality(layout)
    && Loaded(layout, name, style, schema, rows, before)
    && WellKeyed(layout, name, style, entries)
    && MayFlush(layout, style, schema, rows, entries)
  }

  /** Whatever is not an old audit record has been encoded, when stored keys come first. */
  lemma EncodedInPlace(
    layout: Layout, name: Name, style: Style, schema: Schema, rows: seq<Row>, before: Entries, entries: Entries)
    requires Flushes(layout, name, style, schema, rows, before, entries) && SamePlaces(rows, entries)
    ensures Unstored(rows, entries) == entries[|rows|..]
    ensures forall i | 0 <= i < |entries| && (style != Audit || i >= |rows|) ::
      PayloadOf(layout, schema, entries[i].value).Some?
  {
    UnstoredIsRest(rows, entries, |entries|);
    assert entries[..|entries|] == entries;
    if style == Audit {
      SuffixWritable(layout, schema, entries, |rows|);
    }
  }

  lemma SuffixWritable(layout: Layout, schema: Schema, entries: Entries, n: nat)
    requires n <= |entries| && Writable(layout, schema, entries[n..])
    ensures forall i | n <= i < |entries| :: PayloadOf(layout, schema, entries[i].value).Some?
  {
    forall i | n <= i < |entries| ensures PayloadOf(layout, schema, entries[i].value).Some? {
      assert entries[i] == entries[n..][i - n];
    }
  }

  lemma OldRowLoads(
    layout: Layout, name: Name, style: Style, schema: Schema, rows: seq<Row>, before: Entries, entries: Entries, i: nat)
    requires Flushes(layout, name, style, schema, rows, before, entries) && Placed(layout, name, style, before, entries)
    requires |before| == |rows| && SamePlaces(rows, entries) && i < |rows|
    requires forall k | 0 <= k < |entries| && (style != Audit || k >= |rows|) ::
      PayloadOf(layout, schema, entries[k].value).Some?
    ensures LoadRow(layout, name, style, schema, i, FinalRow(layout, name, style, schema, rows[i], entries))
         == Some(Expected(layout, style, schema, before, entries)[i])
  {
    LoadedAt(layout, name, style, schema, rows, before);
    ValueIsAt(entries, i);
    if style == Sequence {
      SequenceRowLoads(layout, name, schema, i, rows[i], before[i], entries, i);
    } else if style != Audit {
      UpdatedRowLoads(layout, name, style, schema, i, rows[i], before[i], entries, i);
    }
  }

  /** Placed containers reload as expected: same keys, same order, each value re-read. */
  lemma PlacedReloads(
    layout: Layout, name: Name, style: Style, schema: Schema, rows: seq<Row>, before: Entries, entries: Entries)
    requires Flushes(layout, name, style, schema, rows, before, entries) && Placed(layout, name, style, before, entries)
    ensures |before| == |rows|
    ensures forall i | 0 <= i < |entries| && (style != Audit || i >= |before|) ::
      PayloadOf(layout, schema, entries[i].value).Some?
    ensures LoadEntries(layout, name, style, schema, Flushed(layout, name, style, schema, rows, entries).value)
         == Some(Expected(layout, style, schema, before, entries))
  {
    LoadedAt(layout, name, style, schema, rows, before);
    EncodedInPlace(layout, name, style, schema, rows, before, entries);
    FlushedAt(layout, name, style, schema, rows, entries);
    var after := Flushed(layout, name, style, schema, rows, entries).value;
    var expected := Expected(layout, style, schema, before, entries);
    forall i | 0 <= i < |after| ensures LoadRow(layout, name, style, schema, i, after[i]) == Some(expected[i]) {
      if i < |rows| {
        OldRowLoads(layout, name, style, schema, rows, before, entries, i);
      } else {
        assert entries[|rows|..][i - |rows|] == entries[i];
        NewRowLoads(layout, name, style, schema, i, entries[i]);
      }
    }
    LoadsAs(layout, name, style, schema, after, expected);
  }

  /** And a flush that reloads as expected was of a placed container. */
  lemma ReloadedWasPlaced(
    layout: Layout, name: Name, style: Style, schema: Schema, rows: seq<Row>, before: Entries, entries: Entries)
    requires Flushes(layout, name, style, schema, rows, before, entries)
    requires forall i | 0 <= i < |entries| && (style != Audit || i >= |before|) ::
      PayloadOf(layout, schema, entries[i].value).Some?
    requires LoadEntries(layout, name, style, schema, Flushed(layout, name, style, schema, rows, entries).value)
          == Some(Expected(layout, style, schema, before, entries))
    ensures Placed(layout, name, style, before, entries)
  {
    LoadedAt(layout, name, style, schema, rows, before);
    FlushedAt(layout, name, style, schema, rows, entries);
    var after := Flushed(layout, name, style, schema, rows, entries).value;
    var parts := seq(|after|, i requires 0 <= i < |after| => LoadRow(layout, name, style, schema, i, after[i]));
    var expected := Expected(layout, style, schema, before, entries);
    assert All(parts) == Some(expected);
    assert |entries| == |after| >= |rows|;
    forall i | 0 <= i < |before|
      ensures entries[i].key == before[i].key
      ensures style == Entities || style == Dictionary ==>
        layout.fixedOf(name, entries[i].value) == layout.fixedOf(name, before[i].value)
      ensures style == Audit ==> entries[i].value == before[i].value
    {
      assert parts[i] == Some(expected[i]);
      assert style == Audit ==> after[i] == rows[i];
      if style == Entities || style == Dictionary {
        UpdatedRowLoads(layout, name, style, schema, i, rows[i], before[i], entries, i);
      }
    }
  }

  /** One collection: it reloads as expected if and only if its loaded keys kept their places. */
  lemma ReloadsIffPlaced(
    layout: Layout, name: Name, style: Style, schema: Schema, rows: seq<Row>, before: Entries, entries: Entries)
    requires Flushes(layout, name, style, schema, rows, before, entries)
    requires forall i | 0 <= i < |entries| && (style != Audit || i >= |before|) ::
      PayloadOf(layout, schema, entries[i].value).Some?
    ensures LoadEntries(layout, name, style, schema, Flushed(layout, name, style, schema, rows, entries).value)
              == Some(Expected(layout, style, schema, before, entries))
            <==> Placed(layout, name, style, before, entries)
  {
    if Placed(layout, name, style, before, entries) {
      PlacedReloads(layout, name, style, schema, rows, before, entries);
    }
    if LoadEntries(layout, name, style, schema, Flushed(layout, name, style, schema, rows, entries).value)
       == Some(Expected(layout, style, schema, before, entries))
    {
      ReloadedWasPlaced(layout, name, style, schema, rows, before, entries);
    }
  }

  // ---------- The whole group ----------

  ghost predicate Sound(layout: Layout, db: Database) {
    Lossless(layout) && RespectsEquality(layout) && Readable(layout, db)
  }

  ghost predicate Readable(layout: Layout, db: Database) {
    && Described(layout, db.tables)
    && (forall n {:trigger DistinctRows(db.tables[n])} | n in db.tables :: DistinctRows(db.tables[n]))
    && Load(layout, db.tables).Some?
  }

  ghost predicate AllWellKeyed(layout: Layout, containers: Containers) {
    && containers.Keys == layout.style.Keys
    && (forall n {:trigger WellKeyed(layout, n, layout.style[n], containers[n])} | n in containers ::
          WellKeyed(layout, n, layout.style[n], containers[n]))
  }

  ghost predicate AllPlaced(layout: Layout, before: Containers, after: Containers)
    requires before.Keys == after.Keys == layout.style.Keys
  {
    forall n {:trigger Placed(layout, n, layout.style[n], before[n], after[n])} | n in after ::
      Placed(layout, n, layout.style[n], before[n], after[n])
  }

  /** What a later load of every container should return. */
  ghost predicate ReloadsAs(layout: Layout, before: Containers, after: Containers, loaded: Containers)
    requires Lossless(layout)
  {
    && loaded.Keys == before.Keys == after.Keys == layout.style.Keys == layout.schema.Keys
    && (forall n {:trigger Reloaded(layout, layout.style[n], layout.schema[n], before[n], after[n],
        loaded[n])} | n in after ::
          Reloaded(layout, layout.style[n], layout.schema[n], before[n], after[n], loaded[n]))
  }

  ghost predicate Reloaded(
    layout: Layout, style: Style, schema: Schema, before: Entries, entries: Entries, loaded: Entries)
    requires Lossless(layout)
  {
    && (forall i | 0 <= i < |entries| && (style != Audit || i >= |before|) ::
        PayloadOf(layout, schema, entries[i].value).Some?)
    && loaded == Expected(layout, style, schema, before, entries)
  }

  lemma LoadedContainer(layout: Layout, db: Database, n: Name)
    requires Readable(layout, db) && n in db.tables
    ensures var container := Load(layout, db.tables).value[n];
      && Loaded(layout, n, layout.style[n], layout.schema[n], db.tables[n], container)
      && WellKeyed(layout, n, layout.style[n], container)
  {
    assert DistinctRows(db.tables[n]);
    LoadedAt(layout, n, layout.style[n], layout.schema[n], db.tables[n], Load(layout, db.tables).value[n]);
  }

  lemma LoadedAreWellKeyed(layout: Layout, db: Database)
    requires Readable(layout, db)
    ensures AllWellKeyed(layout, Load(layout, db.tables).value)
  {
    var containers := Load(layout, db.tables).value;
    forall n | n in containers ensures WellKeyed(layout, n, layout.style[n], containers[n]) {
      LoadedContainer(layout, db, n);
    }
  }

  lemma CollectionReloads(
    layout: Layout, name: Name, style: Style, schema: Schema, rows: seq<Row>, before: Entries, entries: Entries)
    requires Lossless(layout) && RespectsEquality(layout) && Loaded(layout, name, style, schema, rows, before)
    requires WellKeyed(layout, name, style, entries) && Placed(layout, name, style, before, entries)
    requires Flushed(layout, name, style, schema, rows, entries).Some?
    ensures var after := LoadEntries(layout, name, style, schema,
      Flushed(layout, name, style, schema, rows, entries).value);
      after.Some? && Reloaded(layout, style, schema, before, entries, after.value)
  {
    PlacedReloads(layout, name, style, schema, rows, before, entries);
  }

  /** Collection `n` of the flushed tables loads as it should. */
  ghost predicate OneReloads(layout: Layout, n: Name, rows: seq<Row>, before: Entries, entries: Entries)
    requires Lossless(layout) && n in layout.style && n in layout.schema
  {
    var loaded := LoadEntries(layout, n, layout.style[n], layout.schema[n], rows);
    loaded.Some? && Reloaded(layout, layout.style[n], layout.schema[n], before, entries, loaded.value)
  }

  lemma FlushedTable(
    layout: Layout, tables: map<Name, seq<Row>>, containers: Containers, result: map<Name, seq<Row>>, n: Name)
    requires Described(layout, tables) && containers.Keys == tables.Keys && n in tables
    requires Flush(layout, tables, containers) == Some(result)
    ensures result.Keys == tables.Keys
    ensures Flushed(layout, n, layout.style[n], layout.schema[n], tables[n], containers[n]) == Some(result[n])
  {
  }

  lemma AllReload(layout: Layout, tables: map<Name, seq<Row>>, before: Containers, after: Containers)
    requires Lossless(layout) && Described(layout, tables) && before.Keys == after.Keys == tables.Keys
    requires forall n | n in tables :: OneReloads(layout, n, tables[n], before[n], after[n])
    ensures Load(layout, tables).Some? && ReloadsAs(layout, before, after, Load(layout, tables).value)
  {
  }

  /** A committed transaction is exactly the executed containers, if every loaded key kept its place. */
  lemma CommitReloads(layout: Layout, db: Database, before: Containers, after: Containers, result: map<Name, seq<Row>>)
    requires Sound(layout, db) && AllWellKeyed(layout, after)
    requires Load(layout, db.tables) == Some(before) && Flush(layout, db.tables, after) == Some(result)
    requires AllPlaced(layout, before, after)
    ensures Described(layout, result) && Load(layout, result).Some?
    ensures ReloadsAs(layout, before, after, Load(layout, result).value)
  {
    forall n | n in result ensures OneReloads(layout, n, result[n], before[n], after[n]) {
      LoadedContainer(layout, db, n);
      FlushedTable(layout, db.tables, after, result, n);
      assert WellKeyed(layout, n, layout.style[n], after[n]) && Placed(layout, n, layout.style[n], before[n], after[n]);
      CollectionReloads(layout, n, layout.style[n], layout.schema[n], db.tables[n], before[n], after[n]);
    }
    AllReload(layout, result, before, after);
  }

  lemma FlushedRowsDistinct(layout: Layout, name: Name, style: Style, schema: Schema, rows: seq<Row>, entries: Entries)
    requires DistinctRows(rows) && DistinctKeys(entries) && MayFlush(layout, style, schema, rows, entries)
    ensures DistinctRows(Flushed(layout, name, style, schema, rows, entries).value)
  {
    FlushedAt(layout, name, style, schema, rows, entries);
    UnstoredDistinct(rows, entries);
    UnstoredApart(rows, entries);
    var after := Flushed(layout, name, style, schema, rows, entries).value;
    var added := Unstored(rows, entries);
    forall i | 0 <= i < |after| ensures after[i].key == (if i < |rows| then rows[i].key else added[i - |rows|].key) {
      if i >= |rows| {
        assert after[|rows| + (i - |rows|)] == NewRow(layout, name, schema, added[i - |rows|]);
      }
    }
  }

  lemma UnstoredApart(rows: seq<Row>, entries: Entries)
    ensures forall i, j | 0 <= i < |rows| && 0 <= j < |Unstored(rows, entries)| ::
      rows[i].key != Unstored(rows, entries)[j].key
  {
    UnstoredMembers(rows, entries);
    var added := Unstored(rows, entries);
    forall i, j | 0 <= i < |rows| && 0 <= j < |added| ensures rows[i].key != added[j].key {
      assert added[j] in added;
    }
  }

  lemma {:induction false} UnstoredDistinct(rows: seq<Row>, entries: Entries)
    requires DistinctKeys(entries)
    ensures DistinctKeys(Unstored(rows, entries))
  {
    if entries != [] {
      var rest := entries[..|entries| - 1];
      UnstoredDistinct(rows, rest);
      UnstoredMembers(rows, rest);
      var last := entries[|entries| - 1];
      forall e | e in Unstored(rows, rest) ensures e.key != last.key {
        assert e in rest;
      }
      var earlier := Unstored(rows, rest);
      forall i | 0 <= i < |earlier| ensures earlier[i].key != last.key {
        assert earlier[i] in earlier;
      }
    }
  }

  // ---------- Programs ----------

  /** What the store adapters do: set records by their own key, append, replace list items; never remove. */
  predicate Disciplined(layout: Layout, p: Program) {
    match p
    case Rewrite(name, _, _) => name in layout.style && layout.style[name] == Sequence
    case Remove(_, _) => false
    case Then(first, second) => Disciplined(layout, first) && Disciplined(layout, second)
    case Nested(body) => Disciplined(layout, body)
    case Try(body) => Disciplined(layout, body)
    case _ => true
  }

  ghost predicate KeysGrow(before: Entries, after: Entries) {
    |before| <= |after| && forall i | 0 <= i < |before| :: after[i].key == before[i].key
  }

  /** Earlier keys keep their places; audit records their values too. */
  ghost predicate Grows(style: Style, before: Entries, after: Entries) {
    KeysGrow(before, after) && (style == Audit ==> before <= after)
  }

  ghost predicate AllGrow(layout: Layout, before: Containers, after: Containers) {
    && after.Keys == before.Keys <= layout.style.Keys
    && (forall n {:trigger Grows(layout.style[n], before[n], after[n])} | n in before ::
          Grows(layout.style[n], before[n], after[n]))
  }

  /** Setting a key changes its value in place, or adds it at the end. */
  lemma {:induction false} PutAtPlaces(entries: Entries, key: Key, v: Value)
    ensures KeysGrow(entries, PutAt(entries, key, v))
    ensures !HasKey(entries, key) ==> PutAt(entries, key, v) == entries + [Entry(key, v)]
    ensures HasKey(entries, key) ==> |PutAt(entries, key, v)| == |entries|
    ensures forall i | 0 <= i < |entries| :: PutAt(entries, key, v)[i] == entries[i]
              || (entries[i].key == key && PutAt(entries, key, v)[i] == Entry(key, v))
  {
    if entries != [] && entries[0].key != key {
      PutAtPlaces(entries[1..], key, v);
      assert HasKey(entries, key) <==> HasKey(entries[1..], key) by {
        if HasKey(entries, key) {
          var i :| 0 <= i < |entries| && entries[i].key == key;
          assert entries[1..][i - 1].key == key;
        }
        if HasKey(entries[1..], key) {
          var i :| 0 <= i < |entries[1..]| && entries[1..][i].key == key;
          assert entries[i + 1].key == key;
        }
      }
    } else if entries != [] {
      assert HasKey(entries, entries[0].key);
    }
  }

  lemma NextIndexIsNew(layout: Layout, name: Name, entries: Entries)
    requires WellKeyed(layout, name, Sequence, entries)
    ensures !HasKey(entries, Index(|entries|))
  {
  }

  lemma PutKeeps(layout: Layout, name: Name, style: Style, entries: Entries, v: Value)
    requires WellKeyed(layout, name, style, entries)
    requires style == Audit ==> !HasKey(entries, KeyFor(layout, name, style, |entries|, v))
    ensures var after := PutAt(entries, KeyFor(layout, name, style, |entries|, v), v);
      WellKeyed(layout, name, style, after) && Grows(style, entries, after)
  {
    var key := KeyFor(layout, name, style, |entries|, v);
    PutAtPlaces(entries, key, v);
    var after := PutAt(entries, key, v);
    if style == Sequence { NextIndexIsNew(layout, name, entries); }
    if HasKey(entries, key) {
      forall i | 0 <= i < |after|
        ensures after[i].key == entries[i].key && after[i].key == KeyFor(layout, name, style, i, after[i].value)
      {
        assert entries[i].key == KeyFor(layout, name, style, i, entries[i].value);
      }
    } else {
      forall i | 0 <= i < |entries| ensures entries[i].key != key {}
    }
  }

  lemma GrowTransitive(layout: Layout, x: Containers, y: Containers, z: Containers)
    requires AllGrow(layout, x, y) && AllGrow(layout, y, z)
    ensures AllGrow(layout, x, z)
  {
    forall n | n in x ensures Grows(layout.style[n], x[n], z[n]) {
      assert Grows(layout.style[n], x[n], y[n]) && Grows(layout.style[n], y[n], z[n]);
    }
  }

  lemma GrowReflexive(layout: Layout, x: Containers)
    requires x.Keys <= layout.style.Keys
    ensures AllGrow(layout, x, x)
  {
  }

  lemma OneGrows(layout: Layout, x: Containers, name: Name, entries: Entries)
    requires AllWellKeyed(layout, x) && name in x
    requires WellKeyed(layout, name, layout.style[name], entries) && Grows(layout.style[name], x[name], entries)
    ensures AllWellKeyed(layout, x[name := entries]) && AllGrow(layout, x, x[name := entries])
  {
    var y := x[name := entries];
    forall n | n in y
      ensures WellKeyed(layout, n, layout.style[n], y[n]) && Grows(layout.style[n], x[n], y[n])
    {
      assert n != name ==> WellKeyed(layout, n, layout.style[n], x[n]);
    }
  }

  /** A disciplined program, whether it ends well or not, leaves well-keyed containers whose earlier
      keys keep their places and whose earlier audit records are unchanged. */
  lemma {:induction false} DisciplinedKeeps(layout: Layout, p: Program, m: Memory)
    requires Disciplined(layout, p) && AllWellKeyed(layout, m.containers)
    ensures var after := Run(layout, p, m).1.containers;
      AllWellKeyed(layout, after) && AllGrow(layout, m.containers, after)
    decreases p
  {
    GrowReflexive(layout, m.containers);
    match p
    case Put(name, v) =>
      if Run(layout, p, m).0 {
        var entries, style := m.containers[name], layout.style[name];
        assert WellKeyed(layout, name, style, entries);
        PutKeeps(layout, name, style, entries, v);
        OneGrows(layout, m.containers, name, PutAt(entries, KeyFor(layout, name, style, |entries|, v), v));
      }
    case Then(first, second) =>
      DisciplinedKeeps(layout, first, m);
      var (ok, m1) := Run(layout, first, m);
      if ok {
        DisciplinedKeeps(layout, second, m1);
        GrowTransitive(layout, m.containers, m1.containers, Run(layout, second, m1).1.containers);
      }
    case Nested(body) => DisciplinedKeeps(layout, body, m);
    case Try(body) => DisciplinedKeeps(layout, body, m);
    case Rewrite(name, at, v) =>
      if name in m.containers && at < |m.containers[name]| {
        assert WellKeyed(layout, name, layout.style[name], m.containers[name]);
        var entries := m.containers[name];
        OneGrows(layout, m.containers, name, entries[at := Entry(entries[at].key, v)]);
      }
    case _ =>
  }

  /** The columns only an insert writes still fit every record loaded before. */
  ghost predicate FixedKept(layout: Layout, before: Containers, after: Containers) {
    forall n | n in before && n in after && n in layout.style
      && (layout.style[n] == Entities || layout.style[n] == Dictionary) ::
      forall i | 0 <= i < |before[n]| && i < |after[n]| ::
        layout.fixedOf(n, after[n][i].value) == layout.fixedOf(n, before[n][i].value)
  }

  lemma GrownArePlaced(layout: Layout, before: Containers, after: Containers)
    requires before.Keys == after.Keys == layout.style.Keys && AllGrow(layout, before, after)
    requires FixedKept(layout, before, after)
    ensures AllPlaced(layout, before, after)
  {
    forall n | n in after ensures Placed(layout, n, layout.style[n], before[n], after[n]) {
      assert Grows(layout.style[n], before[n], after[n]);
    }
  }

  // ---------- Theorems ----------

  /** The containers a transaction executes, from what it loads. */
  function Executed(layout: Layout, db: Database, p: Program): Containers
    requires Described(layout, db.tables) && Load(layout, db.tables).Some?
  {
    Run(layout, p, Memory(Load(layout, db.tables).value, db.raw)).1.containers
  }

  lemma FailureChangesNothing(layout: Layout, db: Database, p: Program)
    requires Described(layout, db.tables) && !Transact(layout, db, p).0
    ensures Transact(layout, db, p).1 == db
  {
  }

  /** On success, a later load returns the executed containers: same keys in the same order, sequences
      without gaps, every value as its encoding reads back. */
  lemma SuccessReloadsExecuted(layout: Layout, db: Database, p: Program)
    requires Sound(layout, db) && Disciplined(layout, p) && Transact(layout, db, p).0
    requires FixedKept(layout, Load(layout, db.tables).value, Executed(layout, db, p))
    ensures var after := Transact(layout, db, p).1;
      && Sound(layout, after)
      && ReloadsAs(layout, Load(layout, db.tables).value, Executed(layout, db, p), Load(layout, after.tables).value)
  {
    LoadedAreWellKeyed(layout, db);
    var before := Load(layout, db.tables).value;
    var executed := Executed(layout, db, p);
    DisciplinedKeeps(layout, p, Memory(before, db.raw));
    GrownArePlaced(layout, before, executed);
    var after := Transact(layout, db, p).1;
    CommitReloads(layout, db, before, executed, after.tables);
    forall n | n in after.tables ensures DistinctRows(after.tables[n]) {
      FlushedTable(layout, db.tables, executed, after.tables, n);
      assert DistinctRows(db.tables[n]) && WellKeyed(layout, n, layout.style[n], executed[n]);
      FlushedRowsDistinct(layout, n, layout.style[n], layout.schema[n], db.tables[n], executed[n]);
    }
  }

  lemma ReloadedCollectionKeptFixed(
    layout: Layout, db: Database, after: Containers, result: map<Name, seq<Row>>, loaded: Containers, n: Name)
    requires Sound(layout, db) && AllWellKeyed(layout, after) && n in after
    requires Flush(layout, db.tables, after) == Some(result) && Load(layout, result) == Some(loaded)
    requires ReloadsAs(layout, Load(layout, db.tables).value, after, loaded)
    ensures Placed(layout, n, layout.style[n], Load(layout, db.tables).value[n], after[n])
  {
    var before := Load(layout, db.tables).value;
    LoadedContainer(layout, db, n);
    FlushedTable(layout, db.tables, after, result, n);
    assert WellKeyed(layout, n, layout.style[n], after[n]);
    assert Reloaded(layout, layout.style[n], layout.schema[n], before[n], after[n], loaded[n]);
    ReloadedWasPlaced(layout, n, layout.style[n], layout.schema[n], db.tables[n], before[n], after[n]);
  }

  /** The store adapters' transactions reload as executed exactly when no record that existed before
      was given other fixed columns (another workspace or another parent). */
  lemma ReloadsIffFixedKept(layout: Layout, db: Database, p: Program)
    requires Sound(layout, db) && Disciplined(layout, p) && Transact(layout, db, p).0
    ensures var after := Transact(layout, db, p).1;
      && Described(layout, after.tables)
      && (FixedKept(layout, Load(layout, db.tables).value, Executed(layout, db, p))
          <==> Load(layout, after.tables).Some?
               && ReloadsAs(layout, Load(layout, db.tables).value, Executed(layout, db, p),
                   Load(layout, after.tables).value))
  {
    var before, executed, after := Load(layout, db.tables).value, Executed(layout, db, p), Transact(layout, db, p).1;
    LoadedAreWellKeyed(layout, db);
    DisciplinedKeeps(layout, p, Memory(before, db.raw));
    if FixedKept(layout, before, executed) {
      SuccessReloadsExecuted(layout, db, p);
    } else if Load(layout, after.tables).Some?
      && ReloadsAs(layout, before, executed, Load(layout, after.tables).value)
    {
      forall n | n in executed ensures Placed(layout, n, layout.style[n], before[n], executed[n]) {
        ReloadedCollectionKeptFixed(layout, db, executed, after.tables, Load(layout, after.tables).value, n);
      }
    }
  }

  /** Well-typed values of unambiguous schemas come back exactly, not only equal. */
  lemma TypedValuesReloadExactly(
    ctx: Context, classes: set<ClassId>, layout: Layout, style: Style, schema: Schema, before: Entries,
    entries: Entries)
    requires layout == CodecLayout(ctx, layout.style, layout.schema, layout.keyOf, layout.fixedOf, layout.versionOf)
    requires WellFormed(ctx) && UnambiguousFrom(ctx, classes, schema)
    requires forall i | 0 <= i < |entries| :: HasType(ctx, entries[i].value, schema)
    ensures Lossless(layout)
    ensures forall i | 0 <= i < |entries| :: PayloadOf(layout, schema, entries[i].value).Some?
    ensures Expected(layout, style, schema, before, entries) == entries
  {
    CodecIsLossless(ctx, layout.style, layout.schema, layout.keyOf, layout.fixedOf, layout.versionOf);
    forall i | 0 <= i < |entries|
      ensures PayloadOf(layout, schema, entries[i].value).Some?
      ensures Reread(layout, schema, entries[i].value) == entries[i].value
    {
      WellTypedIsAccepted(ctx, classes, entries[i].value, schema);
    }
    assert Expected(layout, style, schema, before, entries) == entries;
  }

  // ---------- Nested commands ----------

  /** What a program does to the containers does not depend on the raw part. */
  lemma {:induction false} RawIsInvisible(layout: Layout, p: Program, m: Memory, raw: map<string, string>)
    ensures var (ok, m1) := Run(layout, p, m);
      var (ok', m1') := Run(layout, p, m.(raw := raw));
      ok == ok' && m1.containers == m1'.containers
    decreases p
  {
    match p
    case Then(first, second) =>
      RawIsInvisible(layout, first, m, raw);
      var (ok, m1) := Run(layout, first, m);
      var (ok', m1') := Run(layout, first, m.(raw := raw));
      if ok {
        RawIsInvisible(layout, second, m1, m1'.raw);
        assert m1.(raw := m1'.raw) == m1';
      }
    case Nested(body) => RawIsInvisible(layout, body, m, raw);
    case Try(body) => RawIsInvisible(layout, body, m, raw);
    case _ =>
  }

  /** A nested command that fails and is caught might as well not have been called, as far as the
      record containers and everything after it are concerned. */
  lemma CaughtFailureLeavesNoTrace(layout: Layout, command: Program, rest: Program, m: Memory)
    requires !Run(layout, command, m).0
    ensures Run(layout, Then(Try(Nested(command)), rest), m).0 == Run(layout, rest, m).0
    ensures Run(layout, Then(Try(Nested(command)), rest), m).1.containers == Run(layout, rest, m).1.containers
  {
    var failed := Run(layout, Nested(command), m);
    assert !failed.0 && failed.1.containers == m.containers;
    assert Run(layout, Try(Nested(command)), m) == (true, failed.1);
    RawIsInvisible(layout, rest, m, failed.1.raw);
    assert m.(raw := failed.1.raw) == failed.1;
  }

  /** The raw writes a program executes, the last one to each column. */
  function Written(layout: Layout, p: Program, m: Memory): map<string, string> {
    match p
    case WriteRaw(column, text) => map[column := text]
    case Then(first, second) =>
      var (ok, m1) := Run(layout, first, m);
      if ok then Written(layout, first, m) + Written(layout, second, m1) else Written(layout, first, m)
    case Nested(body) => Written(layout, body, m)
    case Try(body) => Written(layout, body, m)
    case _ => map[]
  }

  lemma WritesAddUp(raw: map<string, string>, first: map<string, string>, second: map<string, string>)
    ensures raw + first + second == raw + (first + second)
    ensures raw + map[] == raw
  {
  }

  /** Nothing takes a raw write back, whether its command fails or not. */
  lemma {:induction false} RawKeepsWrites(layout: Layout, p: Program, m: Memory)
    ensures Run(layout, p, m).1.raw == m.raw + Written(layout, p, m)
    decreases p
  {
    WritesAddUp(m.raw, map[], map[]);
    match p
    case Then(first, second) =>
      RawKeepsWrites(layout, first, m);
      var (ok, m1) := Run(layout, first, m);
      if ok {
        RawKeepsWrites(layout, second, m1);
        WritesAddUp(m.raw, Written(layout, first, m), Written(layout, second, m1));
      }
    case Nested(body) => RawKeepsWrites(layout, body, m);
    case Try(body) => RawKeepsWrites(layout, body, m);
    case _ =>
  }

  lemma {:induction false} WritesIgnoreRaw(layout: Layout, p: Program, m: Memory, raw: map<string, string>)
    ensures Written(layout, p, m.(raw := raw)) == Written(layout, p, m)
    decreases p
  {
    match p
    case Then(first, second) =>
      WritesIgnoreRaw(layout, first, m, raw);
      RawIsInvisible(layout, first, m, raw);
      var (ok, m1) := Run(layout, first, m);
      var (ok', m1') := Run(layout, first, m.(raw := raw));
      assert m1.(raw := m1'.raw) == m1';
      if ok {
        WritesIgnoreRaw(layout, second, m1, m1'.raw);
      }
    case Nested(body) => WritesIgnoreRaw(layout, body, m, raw);
    case Try(body) => WritesIgnoreRaw(layout, body, m, raw);
    case _ =>
  }

  /** The raw part is not put back: what a caught command wrote there stays under whatever comes after. */
  lemma CaughtFailureKeepsWrites(layout: Layout, command: Program, rest: Program, m: Memory)
    requires !Run(layout, command, m).0
    ensures Run(layout, Then(Try(Nested(command)), rest), m).1.raw
         == m.raw + Written(layout, command, m) + Written(layout, rest, m)
  {
    RawKeepsWrites(layout, command, m);
    var failed := m.(raw := m.raw + Written(layout, command, m));
    assert Run(layout, Nested(command), m) == (false, failed);
    assert Run(layout, Try(Nested(command)), m) == (true, failed);
    RawKeepsWrites(layout, rest, failed);
    WritesIgnoreRaw(layout, rest, m, failed.raw);
  }

  /** Every raw write of the command is either written again by the rest or was there before. */
  ghost predicate WritesNothingNew(layout: Layout, command: Program, rest: Program, m: Memory) {
    forall c | c in Written(layout, command, m) && c !in Written(layout, rest, m) ::
      c in m.raw && m.raw[c] == Written(layout, command, m)[c]
  }

  lemma SameWithWritesIff(raw: map<string, string>, first: map<string, string>, second: map<string, string>)
    ensures raw + first + second == raw + second
            <==> forall c | c in first && c !in second :: c in raw && raw[c] == first[c]
  {
    var x, y := raw + first + second, raw + second;
    if x == y {
      forall c | c in first && c !in second ensures c in raw && raw[c] == first[c] {
        assert c in x && x[c] == first[c];
      }
    }
    if forall c | c in first && c !in second :: c in raw && raw[c] == first[c] {
      assert x.Keys == y.Keys;
    }
  }

  /** A caught failure leaves no trace at all if and only if the command wrote nothing new by raw SQL. */
  lemma CaughtFailureIsInvisibleIff(layout: Layout, command: Program, rest: Program, m: Memory)
    requires !Run(layout, command, m).0
    ensures Run(layout, Then(Try(Nested(command)), rest), m) == Run(layout, rest, m)
            <==> WritesNothingNew(layout, command, rest, m)
  {
    CaughtFailureLeavesNoTrace(layout, command, rest, m);
    CaughtFailureKeepsWrites(layout, command, rest, m);
    RawKeepsWrites(layout, rest, m);
    SameWithWritesIff(m.raw, Written(layout, command, m), Written(layout, rest, m));
  }

  /** A transaction with a caught failure commits exactly when it would without the command, with the same
      rows, and beside them the raw writes of the failed command. */
  lemma RawWritesSurviveNestedFailure(layout: Layout, db: Database, command: Program, rest: Program)
    requires Described(layout, db.tables) && Load(layout, db.tables).Some?
    requires !Run(layout, command, Memory(Load(layout, db.tables).value, db.raw)).0
    ensures var m := Memory(Load(layout, db.tables).value, db.raw);
      var (ok, after) := Transact(layout, db, Then(Try(Nested(command)), rest));
      var (ok', after') := Transact(layout, db, rest);
      && ok == ok' && after.tables == after'.tables
      && after.raw == if ok then db.raw + Written(layout, command, m) + Written(layout, rest, m) else db.raw
  {
    var m := Memory(Load(layout, db.tables).value, db.raw);
    CaughtFailureLeavesNoTrace(layout, command, rest, m);
    CaughtFailureKeepsWrites(layout, command, rest, m);
    FinishKeepsRaw(layout, db, Run(layout, Then(Try(Nested(command)), rest), m), Run(layout, rest, m));
  }

  lemma FinishKeepsRaw(layout: Layout, db: Database, ran: (bool, Memory), ran': (bool, Memory))
    requires Described(layout, db.tables) && ran.0 == ran'.0 && ran.1.containers == ran'.1.containers
    ensures var (ok, after) := Finish(layout, db, ran);
      var (ok', after') := Finish(layout, db, ran');
      ok == ok' && after.tables == after'.tables && after.raw == if ok then ran.1.raw else db.raw
  {
  }

  /** So the transaction is the one without the command if and only if it fails anyway or the command wrote
      nothing new by raw SQL. */
  lemma TransactionForgetsFailureIff(layout: Layout, db: Database, command: Program, rest: Program)
    requires Described(layout, db.tables) && Load(layout, db.tables).Some?
    requires !Run(layout, command, Memory(Load(layout, db.tables).value, db.raw)).0
    ensures Transact(layout, db, Then(Try(Nested(command)), rest)) == Transact(layout, db, rest)
            <==> !Transact(layout, db, rest).0
                 || WritesNothingNew(layout, command, rest, Memory(Load(layout, db.tables).value, db.raw))
  {
    var m := Memory(Load(layout, db.tables).value, db.raw);
    RawWritesSurviveNestedFailure(layout, db, command, rest);
    RawKeepsWrites(layout, rest, m);
    SameWithWritesIff(m.raw, Written(layout, command, m), Written(layout, rest, m));
  }

  // ---------- Where removal would break it ----------

  lemma {:induction false} WithoutSkips(entries: Entries, i: nat)
    requires DistinctKeys(entries) && i < |entries|
    ensures Without(entries, entries[i].key) == entries[..i] + entries[i + 1..]
  {
    if i > 0 {
      var rest := entries[1..];
      assert entries[0].key != entries[i].key == rest[i - 1].key;
      WithoutSkips(rest, i - 1);
      assert [entries[0]] + rest[..i - 1] == entries[..i] && rest[i..] == entries[i + 1..];
      assert [entries[0]] + (rest[..i - 1] + rest[i..]) == entries[..i] + entries[i + 1..];
    }
  }

  /** Removing a record and setting it again moves it to the end. */
  lemma RemoveThenPut(before: Entries, i: nat, v: Value)
    requires DistinctKeys(before) && i < |before|
    ensures PutAt(Without(before, before[i].key), before[i].key, v)
         == before[..i] + before[i + 1..] + [Entry(before[i].key, v)]
  {
    var rest := before[..i] + before[i + 1..];
    WithoutSkips(before, i);
    forall j | 0 <= j < |rest| ensures rest[j].key != before[i].key {
      assert rest[j] == before[if j < i then j else j + 1];
    }
    PutAtPlaces(rest, before[i].key, v);
  }

  lemma MovedIsPlacedIffLast(layout: Layout, name: Name, style: Style, before: Entries, i: nat, v: Value)
    requires DistinctKeys(before) && i < |before| && (style == Dictionary || style == Entities)
    ensures Placed(layout, name, style, before, PutAt(Without(before, before[i].key), before[i].key, v))
            <==> i == |before| - 1 && layout.fixedOf(name, v) == layout.fixedOf(name, before[i].value)
  {
    RemoveThenPut(before, i, v);
    var entries := PutAt(Without(before, before[i].key), before[i].key, v);
    if i < |before| - 1 {
      assert entries[i].key == before[i + 1].key != before[i].key;
    } else {
      assert entries == before[..i] + [Entry(before[i].key, v)];
    }
  }

  /** The rows stay where they are, so a record removed and set again reloads as executed if and only if it
      was the last one of its container and kept its fixed columns. */
  lemma MovedRecordReloadsIffLast(
    layout: Layout, name: Name, style: Style, schema: Schema, rows: seq<Row>, before: Entries, entries: Entries, i: nat,
    v: Value)
    requires i < |before| && (style == Dictionary || style == Entities)
    requires entries == PutAt(Without(before, before[i].key), before[i].key, v)
    requires Flushes(layout, name, style, schema, rows, before, entries)
    ensures forall k | 0 <= k < |entries| :: PayloadOf(layout, schema, entries[k].value).Some?
    ensures LoadEntries(layout, name, style, schema, Flushed(layout, name, style, schema, rows, entries).value)
              == Some(Expected(layout, style, schema, before, entries))
            <==> i == |before| - 1 && layout.fixedOf(name, v) == layout.fixedOf(name, before[i].value)
  {
    LoadedAt(layout, name, style, schema, rows, before);
    MovedIsPlacedIffLast(layout, name, style, before, i, v);
    ReloadsIffPlaced(layout, name, style, schema, rows, before, entries);
  }

  /** A stored record that is gone at the end refuses the flush of a canonical collection. Domain entities and
      audit records that are gone are silently still there, and refuse nothing that can be encoded. */
  lemma RemovalIsRefusedIffCanonical(
    layout: Layout, name: Name, style: Style, schema: Schema, rows: seq<Row>, entries: Entries, i: nat)
    requires i < |rows| && !HasKey(entries, rows[i].key)
    requires Writable(layout, schema, Encoded(style, rows, entries))
    ensures var flushed := Flushed(layout, name, style, schema, rows, entries);
      && (flushed.Some? <==> style == Entities || style == Audit)
      && (flushed.Some? ==> i < |flushed.value| && flushed.value[i] == rows[i])
  {
    if Flushed(layout, name, style, schema, rows, entries).Some? {
      FlushedAt(layout, name, style, schema, rows, entries);
    }
  }

  // ---------- Runs of transactions ----------

  function TransactAll(layout: Layout, db: Database, programs: seq<Program>): (after: Database)
    requires Described(layout, db.tables)
    ensures Described(layout, after.tables)
  {
    if programs == [] then db
    else
      var before := TransactAll(layout, db, programs[..|programs| - 1]);
      KeepsDescribed(layout, before, programs[|programs| - 1]);
      Transact(layout, before, programs[|programs| - 1]).1
  }

  lemma KeepsDescribed(layout: Layout, db: Database, p: Program)
    requires Described(layout, db.tables)
    ensures Described(layout, Transact(layout, db, p).1.tables)
  {
  }

  /** No transaction of the run gives a stored record other fixed columns. */
  ghost predicate FixedKeptAlong(layout: Layout, db: Database, programs: seq<Program>)
    requires Described(layout, db.tables)
  {
    programs == [] ||
    var before := TransactAll(layout, db, programs[..|programs| - 1]);
    && FixedKeptAlong(layout, db, programs[..|programs| - 1])
    && (Load(layout, before.tables).Some? ==>
          FixedKept(layout, Load(layout, before.tables).value, Executed(layout, before, programs[|programs| - 1])))
  }

  /** After any run of transactions, failed ones among them, the database loads, and what it loads are
      the containers of the last transaction that committed. */
  lemma {:induction false} RunsStaySound(layout: Layout, db: Database, programs: seq<Program>)
    requires Sound(layout, db) && FixedKeptAlong(layout, db, programs)
    requires forall k | 0 <= k < |programs| :: Disciplined(layout, programs[k])
    ensures Sound(layout, TransactAll(layout, db, programs))
    ensures programs != [] ==>
      var before := TransactAll(layout, db, programs[..|programs| - 1]);
      var after := TransactAll(layout, db, programs);
      && Load(layout, before.tables).Some? && Load(layout, after.tables).Some?
      && if Transact(layout, before, programs[|programs| - 1]).0
         then ReloadsAs(layout, Load(layout, before.tables).value, Executed(layout, before, programs[|programs| - 1]),
                        Load(layout, after.tables).value)
         else after == before
    decreases |programs|
  {
    if programs != [] {
      var p := programs[|programs| - 1];
      RunsStaySound(layout, db, programs[..|programs| - 1]);
      var before := TransactAll(layout, db, programs[..|programs| - 1]);
      if Transact(layout, before, p).0 {
        SuccessReloadsExecuted(layout, before, p);
      } else {
        FailureChangesNothing(layout, before, p);
      }
    }
  }
}
