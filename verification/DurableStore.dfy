/** The durable store group: record containers held in memory, the rows they are loaded from, and
    the transaction that writes the difference back.

    A table is seen collection by collection, its rows in insertion order. Whatever is written in
    plain SQL beside the records (mode rows, holds, audit of releases) is the raw part. Checks between
    records, foreign keys and inspection limits are not modelled; any refusal has the same effect.
  */
module DurableStore {
  import opened Prelude
  import opened Codec

  type Name = string

  datatype Key = Text(s: string) | Index(i: nat)

  /** How a collection is written: entities by version, dictionaries by revision, sequences and audit
      records by appending. */
  datatype Style = Entities | Dictionary | Sequence | Audit

  /** The collections, how their records are written and read, and what their columns hold. `fixedOf`
      stands for the columns that only an insert writes: workspace, creation time, parents, subject. */
  datatype Layout = Layout(
    encode: (Schema, Value) -> Option<Json>,
    decode: (Schema, Json) -> Option<Value>,
    same: (Value, Value) -> bool,
    style: map<Name, Style>,
    schema: map<Name, Schema>,
    keyOf: (Name, Value) -> string,
    fixedOf: (Name, Value) -> string,
    versionOf: (Name, Value) -> nat)

  /** Identity, fixed columns and version are compared, not copied, so equal records agree on them. */
  ghost predicate RespectsEquality(layout: Layout) {
    forall name, x, y | layout.same(x, y) ::
      && layout.keyOf(name, x) == layout.keyOf(name, y)
      && layout.fixedOf(name, x) == layout.fixedOf(name, y)
      && layout.versionOf(name, x) == layout.versionOf(name, y)
  }

  /** What is written reads back as an equal value. */
  ghost predicate Lossless(layout: Layout) {
    forall schema, v | layout.encode(schema, v).Some? ::
      && layout.decode(schema, layout.encode(schema, v).value).Some?
      && layout.same(layout.decode(schema, layout.encode(schema, v).value).value, v)
  }

  /** The layout whose records the codec writes. */
  function CodecLayout(
    ctx: Context, style: map<Name, Style>, schema: map<Name, Schema>,
    keyOf: (Name, Value) -> string, fixedOf: (Name, Value) -> string, versionOf: (Name, Value) -> nat): Layout
  {
    Layout(
      (s, v) => EncodeValue(ctx, v, s), (s, j) => Decode(ctx, j, s), (x, y) => PyEq(x, y),
      style, schema, keyOf, fixedOf, versionOf)
  }

  /** The codec's self-check is what makes it lossless. */
  lemma CodecIsLossless(
    ctx: Context, style: map<Name, Style>, schema: map<Name, Schema>,
    keyOf: (Name, Value) -> string, fixedOf: (Name, Value) -> string, versionOf: (Name, Value) -> nat)
    ensures Lossless(CodecLayout(ctx, style, schema, keyOf, fixedOf, versionOf))
  {
  }

  datatype Row = Row(key: Key, revision: nat, fixed: string, version: nat, payload: Json)

  datatype Entry = Entry(key: Key, value: Value)

  type Entries = seq<Entry>

  type Containers = map<Name, Entries>

  datatype Database = Database(tables: map<Name, seq<Row>>, raw: map<string, string>)

  // ---------- One collection ----------

  predicate HasKey(entries: Entries, key: Key) { exists i :: 0 <= i < |entries| && entries[i].key == key }

  predicate HasRow(rows: seq<Row>, key: Key) { exists i :: 0 <= i < |rows| && rows[i].key == key }

  predicate DistinctKeys(entries: Entries) {
    forall i, j | 0 <= i < j < |entries| :: entries[i].key != entries[j].key
  }

  predicate DistinctRows(rows: seq<Row>) { forall i, j | 0 <= i < j < |rows| :: rows[i].key != rows[j].key }

  function KeyFor(layout: Layout, name: Name, style: Style, position: nat, v: Value): Key {
    if style == Sequence then Index(position) else Text(layout.keyOf(name, v))
  }

  /** Sequences are numbered without gaps; anything else is keyed by its record. */
  predicate WellKeyed(layout: Layout, name: Name, style: Style, entries: Entries) {
    && DistinctKeys(entries)
    && (forall i | 0 <= i < |entries| :: entries[i].key == KeyFor(layout, name, style, i, entries[i].value))
  }

  /** A row must decode, under the key and columns it was stored with. */
  function LoadRow(layout: Layout, name: Name, style: Style, schema: Schema, position: nat, row: Row): Option<Entry> {
    match layout.decode(schema, row.payload)
    case None => None
    case Some(v) =>
      if || row.key != KeyFor(layout, name, style, position, v)
         || row.fixed != layout.fixedOf(name, v)
         || row.version != layout.versionOf(name, v)
      then None
      else Some(Entry(row.key, v))
  }

  function LoadEntries(layout: Layout, name: Name, style: Style, schema: Schema, rows: seq<Row>): Option<Entries> {
    All(seq(|rows|, i requires 0 <= i < |rows| => LoadRow(layout, name, style, schema, i, rows[i])))
  }

  function PayloadOf(layout: Layout, schema: Schema, v: Value): Option<Json> { layout.encode(schema, v) }

  predicate Writable(layout: Layout, schema: Schema, entries: Entries) {
    forall i | 0 <= i < |entries| :: PayloadOf(layout, schema, entries[i].value).Some?
  }

  function ValueAt(entries: Entries, key: Key): (v: Value)
    requires HasKey(entries, key)
    ensures exists i :: 0 <= i < |entries| && entries[i].key == key && entries[i].value == v
  {
    if entries[0].key == key then entries[0].value else ValueAt(entries[1..], key)
  }

  /** What a row holds once the container is written back. */
  function FinalRow(layout: Layout, name: Name, style: Style, schema: Schema, row: Row, entries: Entries): Row {
    if style == Audit || style == Sequence || !HasKey(entries, row.key) then row
    else
      var v := ValueAt(entries, row.key);
      match PayloadOf(layout, schema, v)
      case None => row
      case Some(payload) =>
        if payload == row.payload then row
        else row.(
          payload := payload,
          version := layout.versionOf(name, v),
          revision := if style == Dictionary then row.revision + 1 else row.revision)
  }

  function NewRow(layout: Layout, name: Name, schema: Schema, e: Entry): Row
    requires PayloadOf(layout, schema, e.value).Some?
  {
    Row(e.key, 1, layout.fixedOf(name, e.value), layout.versionOf(name, e.value),
        PayloadOf(layout, schema, e.value).value)
  }

  /** The entries no row holds yet, in container order. */
  function Unstored(rows: seq<Row>, entries: Entries): Entries {
    if entries == [] then []
    else
      var last := entries[|entries| - 1];
      Unstored(rows, entries[..|entries| - 1]) + (if HasRow(rows, last.key) then [] else [last])
  }

  /** The entries a flush encodes: audit records are encoded only when they are new. */
  function Encoded(style: Style, rows: seq<Row>, entries: Entries): Entries {
    if style == Audit then Unstored(rows, entries) else entries
  }

  predicate HistoryIntact(layout: Layout, schema: Schema, rows: seq<Row>, entries: Entries) {
    forall i | 0 <= i < |rows| && HasKey(entries, rows[i].key) ::
      PayloadOf(layout, schema, ValueAt(entries, rows[i].key)) == Some(rows[i].payload)
  }

  predicate NothingDeleted(rows: seq<Row>, entries: Entries) {
    forall i | 0 <= i < |rows| :: HasKey(entries, rows[i].key)
  }

  predicate MayFlush(layout: Layout, style: Style, schema: Schema, rows: seq<Row>, entries: Entries) {
    && Writable(layout, schema, Encoded(style, rows, entries))
    && (style == Sequence ==> HistoryIntact(layout, schema, rows, entries))
    && (style == Sequence || style == Dictionary ==> NothingDeleted(rows, entries))
  }

  lemma {:induction false} UnstoredMembers(rows: seq<Row>, entries: Entries)
    ensures forall e :: e in Unstored(rows, entries) <==> e in entries && !HasRow(rows, e.key)
  {
    if entries != [] {
      UnstoredMembers(rows, entries[..|entries| - 1]);
    }
  }

  /** What a flush makes of a collection: every row in place, updated or not, then the new rows. */
  function Flushed(layout: Layout, name: Name, style: Style, schema: Schema, rows: seq<Row>, entries: Entries)
    : Option<seq<Row>>
  {
    if !MayFlush(layout, style, schema, rows, entries) then None
    else
      UnstoredMembers(rows, entries);
      var added := Unstored(rows, entries);
      Some(seq(|rows|, i requires 0 <= i < |rows| => FinalRow(layout, name, style, schema, rows[i], entries))
           + seq(|added|, i requires 0 <= i < |added| && PayloadOf(layout, schema, added[i].value).Some? =>
                   NewRow(layout, name, schema, added[i])))
  }

  // ---------- The whole group ----------

  predicate Described(layout: Layout, tables: map<Name, seq<Row>>) {
    tables.Keys == layout.style.Keys == layout.schema.Keys
  }

  function Load(layout: Layout, tables: map<Name, seq<Row>>): (loaded: Option<Containers>)
    requires Described(layout, tables)
    ensures loaded.Some? ==> loaded.value.Keys == tables.Keys
  {
    if forall n | n in tables :: LoadEntries(layout, n, layout.style[n], layout.schema[n], tables[n]).Some?
    then Some(map n | n in tables &&
                      LoadEntries(layout, n, layout.style[n], layout.schema[n], tables[n]).Some? ::
                LoadEntries(layout, n, layout.style[n], layout.schema[n], tables[n]).value)
    else None
  }

  function Flush(layout: Layout, tables: map<Name, seq<Row>>, containers: Containers)
    : (flushed: Option<map<Name, seq<Row>>>)
    requires Described(layout, tables) && containers.Keys == tables.Keys
    ensures flushed.Some? ==> flushed.value.Keys == tables.Keys
  {
    if forall n | n in tables :: Flushed(layout, n, layout.style[n], layout.schema[n], tables[n], containers[n]).Some?
    then Some(map n | n in tables &&
                      Flushed(layout, n, layout.style[n], layout.schema[n], tables[n], containers[n]).Some? ::
                Flushed(layout, n, layout.style[n], layout.schema[n], tables[n], containers[n]).value)
    else None
  }

  // ---------- Commands inside a transaction ----------

  /** What store adapters do inside a transaction. An audit record is refused under an id that is in
      use. `Nested` is a command's own transaction, whose
      failure puts the containers back and is raised on; `Try` is a caller that catches it. */
  datatype Program =
    | Put(name: Name, value: Value)
    | Rewrite(name: Name, at: nat, value: Value)
    | Remove(name: Name, key: Key)
    | WriteRaw(column: string, text: string)
    | Raise
    | Then(first: Program, second: Program)
    | Nested(body: Program)
    | Try(body: Program)

  datatype Memory = Memory(containers: Containers, raw: map<string, string>)

  function PutAt(entries: Entries, key: Key, v: Value): (after: Entries)
    ensures HasKey(after, key)
  {
    if entries == [] then
      assert [Entry(key, v)][0].key == key;
      [Entry(key, v)]
    else if entries[0].key == key then
      var after := [Entry(key, v)] + entries[1..];
      assert after[0].key == key;
      after
    else
      var rest := PutAt(entries[1..], key, v);
      var after := [entries[0]] + rest;
      assert exists i :: 0 <= i < |rest| && rest[i].key == key;
      assert HasKey(after, key) by { var i :| 0 <= i < |rest| && rest[i].key == key; assert after[i + 1].key == key; }
      after
  }

  function Without(entries: Entries, key: Key): Entries {
    if entries == [] then []
    else if entries[0].key == key then entries[1..]
    else [entries[0]] + Without(entries[1..], key)
  }

  function Run(layout: Layout, p: Program, m: Memory): (bool, Memory) {
    match p
    case Put(name, v) =>
      if name !in m.containers || name !in layout.style then (false, m)
      else
        var entries := m.containers[name];
        var key := KeyFor(layout, name, layout.style[name], |entries|, v);
        if layout.style[name] == Audit && HasKey(entries, key) then (false, m)
        else (true, m.(containers := m.containers[name := PutAt(entries, key, v)]))
    case Rewrite(name, at, v) =>
      if name !in m.containers || at >= |m.containers[name]| then (false, m)
      else
        var entries := m.containers[name];
        (true, m.(containers := m.containers[name := entries[at := Entry(entries[at].key, v)]]))
    case Remove(name, key) =>
      if name !in m.containers || !HasKey(m.containers[name], key) then (false, m)
      else (true, m.(containers := m.containers[name := Without(m.containers[name], key)]))
    case WriteRaw(column, text) => (true, m.(raw := m.raw[column := text]))
    case Raise => (false, m)
    case Then(first, second) =>
      var (ok, m1) := Run(layout, first, m);
      if ok then Run(layout, second, m1) else (false, m1)
    case Nested(body) =>
      var (ok, m1) := Run(layout, body, m);
      if ok then (true, m1) else (false, m1.(containers := m.containers))
    case Try(body) => (true, Run(layout, body, m).1)
  }

  /** An outermost transaction: load, run, flush, commit; any failure rolls everything back. */
  function Transact(layout: Layout, db: Database, p: Program): (bool, Database)
    requires Described(layout, db.tables)
  {
    match Load(layout, db.tables)
    case None => (false, db)
    case Some(containers) => Finish(layout, db, Run(layout, p, Memory(containers, db.raw)))
  }

  /** Flush and commit what ran well, or roll back. */
  function Finish(layout: Layout, db: Database, ran: (bool, Memory)): (bool, Database)
    requires Described(layout, db.tables)
  {
    var (ok, m) := ran;
    if !ok || m.containers.Keys != db.tables.Keys then (false, db)
    else match Flush(layout, db.tables, m.containers)
      case None => (false, db)
      case Some(tables) => (true, Database(tables, m.raw))
  }
}
