/** The schema-driven codec between Python values and JSON trees.

    A schema says how a tree is read; union options are tried in order and the first that reads it
    wins. Before a record is written, the codec reads its own encoding back and compares.
    The text of JSON, timestamps and the validity checks of record constructors are parameters.
  */
module Codec {
  import opened Prelude

  type ClassId = nat
  type EnumId = nat

  datatype Prim = PStr(s: string) | PInt(i: int) | PBool(b: bool)

  /** `VOther` is any value the codec does not know, infinities and NaN among them. */
  datatype Value =
    | VNone
    | VPrim(prim: Prim)
    | VFloat(r: real)
    | VEnum(enum: EnumId, member: Prim)
    | VTime(instant: int, utc: bool)
    | VTuple(items: seq<Value>)
    | VRecord(cls: ClassId, values: seq<Value>)
    | VOther

  datatype Json =
    | JNull
    | JPrim(prim: Prim)
    | JFloat(r: real)
    | JList(items: seq<Json>)
    | JObject(keys: seq<string>, members: seq<Json>)

  datatype Schema =
    | SNone
    | SStr
    | SInt
    | SBool
    | SFloat
    | STime
    | SEnum(enum: EnumId)
    | SLiteral(literals: seq<Prim>)
    | SUnion(options: seq<Schema>)
    | STupleOf(item: Schema)
    | STuple(parts: seq<Schema>)
    | SRecord(cls: ClassId)

  datatype Field = Field(name: string, schema: Schema)

  /** The registered record classes and enums, constructor checks, and timestamps as text. */
  datatype Context = Context(
    table: map<ClassId, seq<Field>>,
    names: map<ClassId, string>,
    enums: map<EnumId, seq<Prim>>,
    accepts: (ClassId, seq<Value>) -> bool,
    stamp: int -> string,
    parse: string -> Option<(int, bool)>)

  predicate Distinct<T(==)>(s: seq<T>) { forall i, j | 0 <= i < j < |s| :: s[i] != s[j] }

  function Names(fields: seq<Field>): seq<string> { seq(|fields|, i requires 0 <= i < |fields| => fields[i].name) }

  ghost predicate WellFormed(ctx: Context) {
    && ctx.names.Keys == ctx.table.Keys
    && (forall c | c in ctx.table :: Distinct(Names(ctx.table[c])))
    && (forall c, d | c in ctx.names && d in ctx.names && ctx.names[c] == ctx.names[d] :: c == d)
    && (forall e | e in ctx.enums :: forall p | p in ctx.enums[e] :: !p.PBool?)
    && (forall t :: ctx.parse(ctx.stamp(t)) == Some((t, true)))
  }

  // ---------- Encoding ----------

  /** All of them, or nothing if one is missing. */
  function All<T>(parts: seq<Option<T>>): (r: Option<seq<T>>)
    ensures r.Some? <==> forall i | 0 <= i < |parts| :: parts[i].Some?
    ensures r.Some? ==> |r.value| == |parts| && forall i | 0 <= i < |parts| :: r.value[i] == parts[i].value
  {
    if forall i | 0 <= i < |parts| :: parts[i].Some?
    then Some(seq(|parts|, i requires 0 <= i < |parts| && parts[i].Some? => parts[i].value))
    else None
  }

  function Encode(ctx: Context, v: Value): Option<Json>
    decreases v
  {
    match v
    case VNone => Some(JNull)
    case VPrim(p) => Some(JPrim(p))
    case VFloat(r) => Some(JFloat(r))
    case VEnum(_, p) => Some(JPrim(p))
    case VTime(t, utc) => if utc then Some(JPrim(PStr(ctx.stamp(t)))) else None
    case VTuple(items) =>
      (match All(seq(|items|, i requires 0 <= i < |items| => Encode(ctx, items[i])))
       case None => None
       case Some(encoded) => Some(JList(encoded)))
    case VRecord(cls, values) =>
      if cls !in ctx.table || |values| != |ctx.table[cls]| then None
      else (match All(seq(|values|, i requires 0 <= i < |values| => Encode(ctx, values[i])))
            case None => None
            case Some(encoded) => Some(JObject(Names(ctx.table[cls]), encoded)))
    case VOther => None
  }

  // ---------- Decoding ----------

  /** The first success. */
  function First<T>(parts: seq<Option<T>>): (r: Option<T>)
    ensures r.None? <==> forall i | 0 <= i < |parts| :: parts[i].None?
    ensures r.Some? ==> exists i :: 0 <= i < |parts| && parts[i] == r && forall j | 0 <= j < i :: parts[j].None?
  {
    if parts == [] then None
    else if parts[0].Some? then parts[0]
    else First(parts[1..])
  }

  function IndexOf(keys: seq<string>, name: string): (k: nat)
    requires name in keys
    ensures k < |keys| && keys[k] == name && name !in keys[..k]
  {
    if keys[0] == name then 0 else 1 + IndexOf(keys[1..], name)
  }

  predicate SameKeys(keys: seq<string>, names: seq<string>) {
    && Distinct(keys)
    && (forall k | k in keys :: k in names)
    && (forall k | k in names :: k in keys)
  }

  function Decode(ctx: Context, j: Json, s: Schema): Option<Value>
    decreases j, s
  {
    match s
    case SNone => if j == JNull then Some(VNone) else None
    case SStr => if j.JPrim? && j.prim.PStr? then Some(VPrim(j.prim)) else None
    case SInt => if j.JPrim? && j.prim.PInt? then Some(VPrim(j.prim)) else None
    case SBool => if j.JPrim? && j.prim.PBool? then Some(VPrim(j.prim)) else None
    case SFloat =>
      if j.JFloat? then Some(VFloat(j.r))
      else if j.JPrim? && j.prim.PInt? then Some(VFloat(j.prim.i as real))
      else None
    case STime =>
      if !j.JPrim? || !j.prim.PStr? then None
      else (match ctx.parse(j.prim.s)
            case Some((t, true)) => Some(VTime(t, true))
            case _ => None)
    case SEnum(e) =>
      if j.JPrim? && !j.prim.PBool? && e in ctx.enums && j.prim in ctx.enums[e] then Some(VEnum(e, j.prim)) else None
    case SLiteral(literals) => if j.JPrim? && j.prim in literals then Some(VPrim(j.prim)) else None
    case SUnion(options) => First(seq(|options|, i requires 0 <= i < |options| => Decode(ctx, j, options[i])))
    case STupleOf(item) =>
      if !j.JList? then None
      else (match All(seq(|j.items|, i requires 0 <= i < |j.items| => Decode(ctx, j.items[i], item)))
            case None => None
            case Some(items) => Some(VTuple(items)))
    case STuple(parts) =>
      if !j.JList? || |j.items| != |parts| then None
      else (match All(seq(|parts|, i requires 0 <= i < |parts| => Decode(ctx, j.items[i], parts[i])))
            case None => None
            case Some(items) => Some(VTuple(items)))
    case SRecord(cls) =>
      if !j.JObject? || cls !in ctx.table || |j.members| != |j.keys| || !SameKeys(j.keys, Names(ctx.table[cls]))
        then None
      else
        var fields := ctx.table[cls];
        (match All(seq(|fields|, i requires 0 <= i < |fields| =>
                     if fields[i].name !in j.keys then None
                     else Decode(ctx, j.members[IndexOf(j.keys, fields[i].name)], fields[i].schema)))
         case None => None
         case Some(values) => if ctx.accepts(cls, values) then Some(VRecord(cls, values)) else None)
  }

  // ---------- Python equality ----------

  /** Numbers compare by value whatever their type; members of string and integer enums compare as
      the string or integer they are. */
  datatype Comparable = CNumber(r: real) | CText(s: string)

  function PrimKey(p: Prim): Comparable {
    match p
    case PStr(t) => CText(t)
    case PInt(i) => CNumber(i as real)
    case PBool(b) => CNumber(if b then 1.0 else 0.0)
  }

  function KeyOf(v: Value): Option<Comparable> {
    match v
    case VPrim(p) => Some(PrimKey(p))
    case VFloat(r) => Some(CNumber(r))
    case VEnum(_, p) => Some(PrimKey(p))
    case _ => None
  }

  predicate PyEq(x: Value, y: Value)
    decreases x
  {
    match x
    case VNone => y.VNone?
    case VTime(t, utc) => y.VTime? && y.instant == t && y.utc == utc
    case VTuple(items) =>
      y.VTuple? && |y.items| == |items| && forall i | 0 <= i < |items| :: PyEq(items[i], y.items[i])
    case VRecord(cls, values) =>
      && y.VRecord? && y.cls == cls && |y.values| == |values|
      && (forall i | 0 <= i < |values| :: PyEq(values[i], y.values[i]))
    case VOther => false
    case _ => KeyOf(x).Some? && KeyOf(y) == KeyOf(x)
  }

  // ---------- Accepting a value ----------

  /** `encode_value`: nothing is written that would not read back equal. */
  function EncodeValue(ctx: Context, v: Value, s: Schema): Option<Json> {
    match Encode(ctx, v)
    case None => None
    case Some(j) =>
      match Decode(ctx, j, s)
      case None => None
      case Some(w) => if PyEq(w, v) then Some(j) else None
  }

  const ENVELOPE := ["payload", "schema_version", "type"]

  function EncodeRecord(ctx: Context, v: Value): Option<Json>
    requires ctx.names.Keys == ctx.table.Keys
  {
    if !v.VRecord? || v.cls !in ctx.table then None
    else match EncodeValue(ctx, v, SRecord(v.cls))
      case None => None
      case Some(payload) => Some(JObject(ENVELOPE, [payload, JPrim(PInt(1)), JPrim(PStr(ctx.names[v.cls]))]))
  }

  function Member(j: Json, key: string): Json
    requires j.JObject? && |j.members| == |j.keys| && key in j.keys
  {
    j.members[IndexOf(j.keys, key)]
  }

  function DecodeRecord(ctx: Context, j: Json, cls: ClassId): Option<Value>
    requires ctx.names.Keys == ctx.table.Keys
  {
    if || !j.JObject? || |j.members| != |j.keys| || !SameKeys(j.keys, ENVELOPE)
       || cls !in ctx.table
       || Member(j, "schema_version") != JPrim(PInt(1))
       || Member(j, "type") != JPrim(PStr(ctx.names[cls]))
    then None
    else Decode(ctx, Member(j, "payload"), SRecord(cls))
  }
}
