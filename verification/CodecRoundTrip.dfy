/** When the codec returns exactly what was written, and when it refuses to write. */
module CodecRoundTrip {
  import opened Prelude
  import opened Codec

  // ---------- Types ----------

  /** `v` is a value of the annotated type. */
  ghost predicate HasType(ctx: Context, v: Value, s: Schema)
    decreases v, s
  {
    match s
    case SNone => v == VNone
    case SStr => v.VPrim? && v.prim.PStr?
    case SInt => v.VPrim? && v.prim.PInt?
    case SBool => v.VPrim? && v.prim.PBool?
    case SFloat => v.VFloat?
    case STime => v.VTime? && v.utc
    case SEnum(e) => v.VEnum? && v.enum == e && e in ctx.enums && v.member in ctx.enums[e]
    case SLiteral(literals) => v.VPrim? && v.prim in literals
    case SUnion(options) => exists i :: 0 <= i < |options| && HasType(ctx, v, options[i])
    case STupleOf(item) => v.VTuple? && forall i | 0 <= i < |v.items| :: HasType(ctx, v.items[i], item)
    case STuple(parts) =>
      v.VTuple? && |v.items| == |parts| && forall i | 0 <= i < |parts| :: HasType(ctx, v.items[i], parts[i])
    case SRecord(cls) =>
      && v.VRecord? && v.cls == cls && cls in ctx.table && |v.values| == |ctx.table[cls]|
      && (forall i | 0 <= i < |v.values| :: HasType(ctx, v.values[i], ctx.table[cls][i].schema))
      && ctx.accepts(cls, v.values)
  }

  // ---------- Kinds of encodings ----------

  /** What can be seen of a tree without reading it: its sort and, for an object, its key set. */
  datatype Kind = KNull | KBool | KInt | KFloat | KText | KList | KObject(keys: set<string>)

  function Keys(names: seq<string>): set<string> { set k | k in names }

  function PrimKind(p: Prim): Kind {
    match p
    case PStr(_) => KText
    case PInt(_) => KInt
    case PBool(_) => KBool
  }

  function KindOf(j: Json): Kind {
    match j
    case JNull => KNull
    case JPrim(p) => PrimKind(p)
    case JFloat(_) => KFloat
    case JList(_) => KList
    case JObject(keys, _) => KObject(Keys(keys))
  }

  /** The kinds a schema can read. */
  function Kinds(ctx: Context, s: Schema): set<Kind> {
    match s
    case SNone => {KNull}
    case SStr => {KText}
    case SInt => {KInt}
    case SBool => {KBool}
    case SFloat => {KInt, KFloat}
    case STime => {KText}
    case SEnum(e) => if e in ctx.enums then set p | p in ctx.enums[e] :: PrimKind(p) else {}
    case SLiteral(literals) => set p | p in literals :: PrimKind(p)
    case SUnion(options) => set i, k | 0 <= i < |options| && k in Kinds(ctx, options[i]) :: k
    case STupleOf(_) => {KList}
    case STuple(_) => {KList}
    case SRecord(cls) => if cls in ctx.table then {KObject(Keys(Names(ctx.table[cls])))} else {}
  }

  /** No encoding of the later schema's values is read by the earlier one. */
  ghost predicate Apart(ctx: Context, earlier: Schema, later: Schema) {
    forall v | HasType(ctx, v, later) && Encode(ctx, v).Some? :: Decode(ctx, Encode(ctx, v).value, earlier).None?
  }

  /** In no union of the schema can an option read what a later one encodes. */
  ghost predicate Unambiguous(ctx: Context, s: Schema)
    decreases s
  {
    match s
    case SUnion(options) =>
      && (forall i | 0 <= i < |options| :: Unambiguous(ctx, options[i]))
      && (forall i, k | 0 <= i < k < |options| :: Apart(ctx, options[i], options[k]))
    case STupleOf(item) => Unambiguous(ctx, item)
    case STuple(parts) => forall i | 0 <= i < |parts| :: Unambiguous(ctx, parts[i])
    case _ => true
  }

  /** The record classes a schema names. */
  function Refs(s: Schema): set<ClassId> {
    match s
    case SUnion(options) => set i, c | 0 <= i < |options| && c in Refs(options[i]) :: c
    case STupleOf(item) => Refs(item)
    case STuple(parts) => set i, c | 0 <= i < |parts| && c in Refs(parts[i]) :: c
    case SRecord(cls) => {cls}
    case _ => {}
  }

  /** An unambiguous schema that names only the given classes. */
  ghost predicate Safe(ctx: Context, classes: set<ClassId>, s: Schema) {
    Unambiguous(ctx, s) && Refs(s) <= classes
  }

  /** The fields of each of these classes are unambiguous and lead to these classes only. */
  ghost predicate ClosedClasses(ctx: Context, classes: set<ClassId>) {
    forall c, i {:trigger Safe(ctx, classes, ctx.table[c][i].schema)}
      | c in classes && c in ctx.table && 0 <= i < |ctx.table[c]| :: Safe(ctx, classes, ctx.table[c][i].schema)
  }

  /** Whatever can be reached from the schema is unambiguous; `classes` holds at least the classes reached.
      The rest of the table may be as ambiguous as it likes. */
  ghost predicate UnambiguousFrom(ctx: Context, classes: set<ClassId>, s: Schema) {
    Safe(ctx, classes, s) && ClosedClasses(ctx, classes)
  }

  lemma SameKeysSameSet(keys: seq<string>, names: seq<string>)
    requires SameKeys(keys, names)
    ensures Keys(keys) == Keys(names)
  {
  }

  /** A schema reads only its own kinds. */
  lemma {:induction false} ReadsOwnKinds(ctx: Context, j: Json, s: Schema)
    requires Decode(ctx, j, s).Some?
    ensures KindOf(j) in Kinds(ctx, s)
    decreases s
  {
    match s
    case SUnion(options) =>
      var parts := seq(|options|, i requires 0 <= i < |options| => Decode(ctx, j, options[i]));
      assert First(parts).Some?;
      var i :| 0 <= i < |parts| && parts[i].Some?;
      ReadsOwnKinds(ctx, j, options[i]);
    case SRecord(cls) => SameKeysSameSet(j.keys, Names(ctx.table[cls]));
    case _ =>
  }

  /** And what it encodes is of its own kinds. */
  lemma {:induction false} EncodesOwnKinds(ctx: Context, v: Value, s: Schema)
    requires WellFormed(ctx) && HasType(ctx, v, s) && Encode(ctx, v).Some?
    ensures KindOf(Encode(ctx, v).value) in Kinds(ctx, s)
    decreases s
  {
    match s
    case SUnion(options) =>
      var i :| 0 <= i < |options| && HasType(ctx, v, options[i]);
      EncodesOwnKinds(ctx, v, options[i]);
    case _ =>
  }

  /** Schemas that read different kinds of trees are apart. */
  lemma KindsApart(ctx: Context, earlier: Schema, later: Schema)
    requires WellFormed(ctx) && Kinds(ctx, earlier) !! Kinds(ctx, later)
    ensures Apart(ctx, earlier, later)
  {
    forall v | HasType(ctx, v, later) && Encode(ctx, v).Some?
      ensures Decode(ctx, Encode(ctx, v).value, earlier).None?
    {
      EncodesOwnKinds(ctx, v, later);
      if Decode(ctx, Encode(ctx, v).value, earlier).Some? {
        ReadsOwnKinds(ctx, Encode(ctx, v).value, earlier);
      }
    }
  }

  // ---------- Round trip ----------

  lemma IndexOfDistinct(keys: seq<string>, k: nat)
    requires Distinct(keys) && k < |keys|
    ensures IndexOf(keys, keys[k]) == k
  {
  }

  /** A well-typed record with members that round-trip reads back as itself. */
  lemma RecordReads(ctx: Context, cls: ClassId, values: seq<Value>, members: seq<Json>)
    requires WellFormed(ctx) && cls in ctx.table && |values| == |ctx.table[cls]| == |members|
    requires ctx.accepts(cls, values)
    requires forall i | 0 <= i < |values| :: Decode(ctx, members[i], ctx.table[cls][i].schema) == Some(values[i])
    ensures Decode(ctx, JObject(Names(ctx.table[cls]), members), SRecord(cls)) == Some(VRecord(cls, values))
  {
    var fields := ctx.table[cls];
    var names := Names(fields);
    var j := JObject(names, members);
    var parts := seq(|fields|, i requires 0 <= i < |fields| =>
                     if fields[i].name !in j.keys then None
                     else Decode(ctx, j.members[IndexOf(j.keys, fields[i].name)], fields[i].schema));
    forall i | 0 <= i < |fields| ensures parts[i] == Some(values[i]) {
      assert names[i] == fields[i].name;
      IndexOfDistinct(names, i);
    }
    assert All(parts).value == values;
  }

  lemma ListReads(ctx: Context, items: seq<Value>, encoded: seq<Json>, schemas: seq<Schema>)
    requires |items| == |encoded| == |schemas|
    requires forall i | 0 <= i < |items| :: Decode(ctx, encoded[i], schemas[i]) == Some(items[i])
    ensures Decode(ctx, JList(encoded), STuple(schemas)) == Some(VTuple(items))
  {
    var parts := seq(|schemas|, i requires 0 <= i < |schemas| => Decode(ctx, encoded[i], schemas[i]));
    assert All(parts).value == items;
  }

  lemma ListOfReads(ctx: Context, items: seq<Value>, encoded: seq<Json>, item: Schema)
    requires |items| == |encoded|
    requires forall i | 0 <= i < |items| :: Decode(ctx, encoded[i], item) == Some(items[i])
    ensures Decode(ctx, JList(encoded), STupleOf(item)) == Some(VTuple(items))
  {
    var parts := seq(|encoded|, i requires 0 <= i < |encoded| => Decode(ctx, encoded[i], item));
    assert All(parts).value == items;
  }

  lemma EncodesAll(ctx: Context, items: seq<Value>)
    requires forall i | 0 <= i < |items| :: Encode(ctx, items[i]).Some?
    ensures var parts := seq(|items|, i requires 0 <= i < |items| => Encode(ctx, items[i]));
      All(parts).Some? && forall i | 0 <= i < |items| :: All(parts).value[i] == Encode(ctx, items[i]).value
  {
  }

  /** No option before the value's own reads it, so trying them in order finds that one. */
  lemma UnionReads(ctx: Context, v: Value, options: seq<Schema>, k: nat)
    requires k < |options| && HasType(ctx, v, options[k]) && Encode(ctx, v).Some?
    requires Decode(ctx, Encode(ctx, v).value, options[k]) == Some(v)
    requires forall i | 0 <= i < k :: Apart(ctx, options[i], options[k])
    ensures Decode(ctx, Encode(ctx, v).value, SUnion(options)) == Some(v)
  {
    var j := Encode(ctx, v).value;
    var parts := seq(|options|, i requires 0 <= i < |options| => Decode(ctx, j, options[i]));
    forall i | 0 <= i < k ensures parts[i].None? {
      assert Apart(ctx, options[i], options[k]);
    }
    assert parts[k] == Some(v);
  }

  /** Where no union option reads what a later one encodes, every well-typed value is encoded and
      decoding returns exactly that value. */
  lemma {:induction false} RoundTrip(ctx: Context, classes: set<ClassId>, v: Value, s: Schema)
    requires WellFormed(ctx) && UnambiguousFrom(ctx, classes, s) && HasType(ctx, v, s)
    ensures Encode(ctx, v).Some? && Decode(ctx, Encode(ctx, v).value, s) == Some(v)
    decreases v, s
  {
    match s
    case SUnion(options) =>
      var k :| 0 <= k < |options| && HasType(ctx, v, options[k]);
      RefsOfOption(options, k);
      RoundTrip(ctx, classes, v, options[k]);
      UnionReads(ctx, v, options, k);
    case STupleOf(item) =>
      forall i | 0 <= i < |v.items|
        ensures Encode(ctx, v.items[i]).Some? && Decode(ctx, Encode(ctx, v.items[i]).value, item) == Some(v.items[i])
      {
        RoundTrip(ctx, classes, v.items[i], item);
      }
      EncodesAll(ctx, v.items);
      ListOfReads(ctx, v.items, Encode(ctx, v).value.items, item);
    case STuple(parts) =>
      forall i | 0 <= i < |parts|
        ensures Encode(ctx, v.items[i]).Some?
        ensures Decode(ctx, Encode(ctx, v.items[i]).value, parts[i]) == Some(v.items[i])
      {
        RefsOfPart(parts, i);
        RoundTrip(ctx, classes, v.items[i], parts[i]);
      }
      EncodesAll(ctx, v.items);
      ListReads(ctx, v.items, Encode(ctx, v).value.items, parts);
    case SRecord(cls) =>
      var fields := ctx.table[cls];
      forall i | 0 <= i < |fields|
        ensures Encode(ctx, v.values[i]).Some?
        ensures Decode(ctx, Encode(ctx, v.values[i]).value, fields[i].schema) == Some(v.values[i])
      {
        assert Safe(ctx, classes, ctx.table[cls][i].schema);
        RoundTrip(ctx, classes, v.values[i], fields[i].schema);
      }
      EncodesAll(ctx, v.values);
      RecordReads(ctx, cls, v.values, Encode(ctx, v).value.members);
    case _ =>
  }

  lemma RefsOfOption(options: seq<Schema>, k: nat)
    requires k < |options|
    ensures Refs(options[k]) <= Refs(SUnion(options))
  {
  }

  lemma RefsOfPart(parts: seq<Schema>, k: nat)
    requires k < |parts|
    ensures Refs(parts[k]) <= Refs(STuple(parts))
  {
  }

  lemma {:induction false} EqualToItself(ctx: Context, v: Value)
    requires Encode(ctx, v).Some?
    ensures PyEq(v, v)
    decreases v
  {
    match v
    case VTuple(items) =>
      var parts := seq(|items|, i requires 0 <= i < |items| => Encode(ctx, items[i]));
      forall i | 0 <= i < |items| ensures PyEq(items[i], items[i]) {
        assert parts[i].Some?;
        EqualToItself(ctx, items[i]);
      }
    case VRecord(_, values) =>
      var parts := seq(|values|, i requires 0 <= i < |values| => Encode(ctx, values[i]));
      forall i | 0 <= i < |values| ensures PyEq(values[i], values[i]) {
        assert parts[i].Some?;
        EqualToItself(ctx, values[i]);
      }
    case _ =>
  }

  ghost predicate ReadsBackExactly(ctx: Context, v: Value, s: Schema) {
    EncodeValue(ctx, v, s).Some? && Decode(ctx, EncodeValue(ctx, v, s).value, s) == Some(v)
  }

  /** The self-check never refuses a well-typed value of an unambiguous schema. */
  lemma WellTypedIsAccepted(ctx: Context, classes: set<ClassId>, v: Value, s: Schema)
    requires WellFormed(ctx) && UnambiguousFrom(ctx, classes, s) && HasType(ctx, v, s)
    ensures ReadsBackExactly(ctx, v, s)
  {
    RoundTrip(ctx, classes, v, s);
    EqualToItself(ctx, v);
  }

  // ---------- What decoding can return ----------

  /** Only well-typed values, accepted by their constructors, are ever read. */
  lemma {:induction false} DecodeIsSound(ctx: Context, j: Json, s: Schema)
    requires Decode(ctx, j, s).Some?
    ensures HasType(ctx, Decode(ctx, j, s).value, s)
    decreases j, s
  {
    match s
    case SUnion(options) =>
      var parts := seq(|options|, i requires 0 <= i < |options| => Decode(ctx, j, options[i]));
      assert First(parts) == Decode(ctx, j, s);
      var k :| 0 <= k < |parts| && parts[k] == First(parts);
      DecodeIsSound(ctx, j, options[k]);
    case STupleOf(item) =>
      var parts := seq(|j.items|, i requires 0 <= i < |j.items| => Decode(ctx, j.items[i], item));
      forall i | 0 <= i < |j.items| ensures HasType(ctx, All(parts).value[i], item) {
        assert parts[i].Some?;
        DecodeIsSound(ctx, j.items[i], item);
      }
    case STuple(schemas) =>
      var parts := seq(|schemas|, i requires 0 <= i < |schemas| => Decode(ctx, j.items[i], schemas[i]));
      forall i | 0 <= i < |schemas| ensures HasType(ctx, All(parts).value[i], schemas[i]) {
        assert parts[i].Some?;
        DecodeIsSound(ctx, j.items[i], schemas[i]);
      }
    case SRecord(cls) =>
      var fields := ctx.table[cls];
      var parts := seq(|fields|, i requires 0 <= i < |fields| =>
                       if fields[i].name !in j.keys then None
                       else Decode(ctx, j.members[IndexOf(j.keys, fields[i].name)], fields[i].schema));
      forall i | 0 <= i < |fields| ensures HasType(ctx, All(parts).value[i], fields[i].schema) {
        assert parts[i].Some?;
        DecodeIsSound(ctx, j.members[IndexOf(j.keys, fields[i].name)], fields[i].schema);
      }
    case _ =>
  }

  /** Trees that differ only in the order in which objects list their members. */
  ghost predicate SameTree(x: Json, y: Json)
    decreases x
  {
    match x
    case JList(items) =>
      y.JList? && |y.items| == |items| && forall i | 0 <= i < |items| :: SameTree(items[i], y.items[i])
    case JObject(keys, members) =>
      && y.JObject? && |members| == |keys| && |y.members| == |y.keys|
      && Distinct(keys) && SameKeys(y.keys, keys)
      && (forall k | 0 <= k < |keys| :: SameTree(members[k], y.members[IndexOf(y.keys, keys[k])]))
    case _ => y == x
  }

  lemma SameKeysEitherWay(x: seq<string>, y: seq<string>, names: seq<string>)
    requires Distinct(x) && SameKeys(y, x)
    ensures SameKeys(x, names) == SameKeys(y, names)
  {
  }

  /** Sorting the keys of a printed object changes nothing that is read. */
  lemma {:induction false} KeyOrderIsIrrelevant(ctx: Context, x: Json, y: Json, s: Schema)
    requires SameTree(x, y)
    ensures Decode(ctx, x, s) == Decode(ctx, y, s)
    decreases x, s
  {
    match s
    case SUnion(options) =>
      forall i | 0 <= i < |options| ensures Decode(ctx, x, options[i]) == Decode(ctx, y, options[i]) {
        KeyOrderIsIrrelevant(ctx, x, y, options[i]);
      }
      assert seq(|options|, i requires 0 <= i < |options| => Decode(ctx, x, options[i]))
          == seq(|options|, i requires 0 <= i < |options| => Decode(ctx, y, options[i]));
    case STupleOf(item) =>
      if x.JList? {
        forall i | 0 <= i < |x.items| ensures Decode(ctx, x.items[i], item) == Decode(ctx, y.items[i], item) {
          KeyOrderIsIrrelevant(ctx, x.items[i], y.items[i], item);
        }
        assert seq(|x.items|, i requires 0 <= i < |x.items| => Decode(ctx, x.items[i], item))
            == seq(|y.items|, i requires 0 <= i < |y.items| => Decode(ctx, y.items[i], item));
      }
    case STuple(parts) =>
      if x.JList? && |x.items| == |parts| {
        forall i | 0 <= i < |parts| ensures Decode(ctx, x.items[i], parts[i]) == Decode(ctx, y.items[i], parts[i]) {
          KeyOrderIsIrrelevant(ctx, x.items[i], y.items[i], parts[i]);
        }
        assert seq(|parts|, i requires 0 <= i < |parts| => Decode(ctx, x.items[i], parts[i]))
            == seq(|parts|, i requires 0 <= i < |parts| => Decode(ctx, y.items[i], parts[i]));
      }
    case SRecord(cls) =>
      if x.JObject? && cls in ctx.table {
        SameKeysEitherWay(x.keys, y.keys, Names(ctx.table[cls]));
        var fields := ctx.table[cls];
        forall i | 0 <= i < |fields|
          ensures FieldOf(ctx, x, fields[i]) == FieldOf(ctx, y, fields[i])
        {
          if fields[i].name in x.keys {
            var k := IndexOf(x.keys, fields[i].name);
            KeyOrderIsIrrelevant(ctx, x.members[k], y.members[IndexOf(y.keys, x.keys[k])], fields[i].schema);
          }
        }
        SameFields(ctx, x, y, fields);
      }
    case _ =>
  }

  function FieldOf(ctx: Context, j: Json, field: Field): Option<Value>
    requires j.JObject? && |j.members| == |j.keys|
  {
    if field.name !in j.keys then None
    else Decode(ctx, j.members[IndexOf(j.keys, field.name)], field.schema)
  }

  lemma SameFields(ctx: Context, x: Json, y: Json, fields: seq<Field>)
    requires x.JObject? && |x.members| == |x.keys| && y.JObject? && |y.members| == |y.keys|
    requires forall i | 0 <= i < |fields| :: FieldOf(ctx, x, fields[i]) == FieldOf(ctx, y, fields[i])
    ensures seq(|fields|, i requires 0 <= i < |fields| =>
                if fields[i].name !in x.keys then None
                else Decode(ctx, x.members[IndexOf(x.keys, fields[i].name)], fields[i].schema))
         == seq(|fields|, i requires 0 <= i < |fields| =>
                if fields[i].name !in y.keys then None
                else Decode(ctx, y.members[IndexOf(y.keys, fields[i].name)], fields[i].schema))
  {
    var xs := seq(|fields|, i requires 0 <= i < |fields| =>
                  if fields[i].name !in x.keys then None
                  else Decode(ctx, x.members[IndexOf(x.keys, fields[i].name)], fields[i].schema));
    var ys := seq(|fields|, i requires 0 <= i < |fields| =>
                  if fields[i].name !in y.keys then None
                  else Decode(ctx, y.members[IndexOf(y.keys, fields[i].name)], fields[i].schema));
    forall i | 0 <= i < |fields| ensures xs[i] == ys[i] {
      assert FieldOf(ctx, x, fields[i]) == FieldOf(ctx, y, fields[i]);
    }
    assert xs == ys;
  }

  // ---------- Records and their envelope ----------

  /** An accepted record reads back, under any key order, as an equal record of its own class and as
      nothing else. */
  lemma AcceptedRecordsReadBack(ctx: Context, v: Value, j: Json, cls: ClassId)
    requires WellFormed(ctx) && EncodeRecord(ctx, v).Some?
    requires SameTree(EncodeRecord(ctx, v).value, j)
    ensures cls == v.cls ==> DecodeRecord(ctx, j, cls).Some? && PyEq(DecodeRecord(ctx, j, cls).value, v)
                             && HasType(ctx, DecodeRecord(ctx, j, cls).value, SRecord(cls))
    ensures cls != v.cls ==> DecodeRecord(ctx, j, cls).None?
  {
    var envelope := EncodeRecord(ctx, v).value;
    var payload := envelope.members[0];
    EnvelopeKeys();
    SameKeysEitherWay(envelope.keys, j.keys, ENVELOPE);
    assert SameKeys(ENVELOPE, ENVELOPE);
    assert SameTree(envelope.members[0], Member(j, "payload"));
    assert SameTree(envelope.members[1], Member(j, "schema_version"));
    assert SameTree(envelope.members[2], Member(j, "type"));
    if cls == v.cls {
      KeyOrderIsIrrelevant(ctx, payload, Member(j, "payload"), SRecord(cls));
      DecodeIsSound(ctx, payload, SRecord(cls));
    }
  }

  lemma EnvelopeKeys()
    ensures Distinct(ENVELOPE)
    ensures ENVELOPE[0] == "payload" && ENVELOPE[1] == "schema_version" && ENVELOPE[2] == "type"
  {
    assert ENVELOPE[0][0] == 'p' && ENVELOPE[1][0] == 's' && ENVELOPE[2][0] == 't';
  }

  /** What reads back exactly without its envelope does so within it, under any key order. */
  lemma ExactRecordsRoundTrip(ctx: Context, v: Value, j: Json)
    requires WellFormed(ctx) && v.VRecord? && v.cls in ctx.table && ReadsBackExactly(ctx, v, SRecord(v.cls))
    ensures EncodeRecord(ctx, v).Some?
    ensures SameTree(EncodeRecord(ctx, v).value, j) ==> DecodeRecord(ctx, j, v.cls) == Some(v)
  {
    if SameTree(EncodeRecord(ctx, v).value, j) {
      var envelope := EncodeRecord(ctx, v).value;
      EnvelopeKeys();
      SameKeysEitherWay(envelope.keys, j.keys, ENVELOPE);
      assert SameTree(envelope.members[0], Member(j, "payload"));
      assert SameTree(envelope.members[1], Member(j, "schema_version"));
      assert SameTree(envelope.members[2], Member(j, "type"));
      KeyOrderIsIrrelevant(ctx, envelope.members[0], Member(j, "payload"), SRecord(v.cls));
    }
  }

  /** A well-typed record of a class that leads to unambiguous fields only is accepted and reads back as itself. */
  lemma WellTypedRecordsRoundTrip(ctx: Context, classes: set<ClassId>, v: Value, j: Json)
    requires WellFormed(ctx) && v.VRecord? && HasType(ctx, v, SRecord(v.cls))
    requires UnambiguousFrom(ctx, classes, SRecord(v.cls))
    ensures EncodeRecord(ctx, v).Some?
    ensures SameTree(EncodeRecord(ctx, v).value, j) ==> DecodeRecord(ctx, j, v.cls) == Some(v)
  {
    WellTypedIsAccepted(ctx, classes, v, SRecord(v.cls));
    ExactRecordsRoundTrip(ctx, v, j);
  }

  /** Classes whose field names differ never read each other's records. */
  lemma DifferentFieldsNeverShare(ctx: Context, v: Value, cls: ClassId)
    requires v.VRecord? && Encode(ctx, v).Some? && cls in ctx.table
    requires Keys(Names(ctx.table[cls])) != Keys(Names(ctx.table[v.cls]))
    ensures Decode(ctx, Encode(ctx, v).value, SRecord(cls)).None?
  {
    var j := Encode(ctx, v).value;
    assert KindOf(j) == KObject(Keys(Names(ctx.table[v.cls])));
    if Decode(ctx, j, SRecord(cls)).Some? {
      ReadsOwnKinds(ctx, j, SRecord(cls));
    }
  }
}
