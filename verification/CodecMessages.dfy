/** The message classes of the registry, whose payload union shares an encoding between two classes. */
module CodecMessages {
  import opened Prelude
  import opened Codec
  import opened CodecRoundTrip

  // ---------- The classes ----------

  const INFORMATION: ClassId := 1
  const REQUEST: ClassId := 2
  const RESPONSE: ClassId := 3
  const HANDOFF_REQUEST: ClassId := 4
  const HANDOFF_RESULT: ClassId := 5
  const REQUIREMENTS: ClassId := 6
  const MEMORY_SCOPE: ClassId := 7
  const VERSION: ClassId := 8
  const REFERENCE: ClassId := 9
  const MESSAGE: ClassId := 10
  const TOOL_ID: ClassId := 11
  const KNOWLEDGE_SOURCE_ID: ClassId := 12
  const CAPABILITY_ID: ClassId := 13
  const DEPARTMENT_ID: ClassId := 14
  const ORG_ROLE_ID: ClassId := 15
  const WORKSPACE_ID: ClassId := 16
  const ORCHESTRATION_RUN_ID: ClassId := 17
  const THREAD_ID: ClassId := 18
  const AGENT_RUN_ID: ClassId := 19
  const AGENT_DEFINITION_ID: ClassId := 20
  const TASK_ID: ClassId := 21
  const DELEGATION_ID: ClassId := 22
  const MESSAGE_ID: ClassId := 23

  const MEMORY_SCOPE_KIND: EnumId := 1
  const MESSAGE_KIND: EnumId := 2
  const MESSAGE_STATUS: EnumId := 3
  const REFERENCE_KIND: EnumId := 4

  const PAYLOAD_CLASSES: seq<ClassId> := [INFORMATION, REQUEST, RESPONSE, HANDOFF_REQUEST, HANDOFF_RESULT]

  const MESSAGE_PAYLOAD := SUnion([
    SRecord(INFORMATION), SRecord(REQUEST), SRecord(RESPONSE), SRecord(HANDOFF_REQUEST), SRecord(HANDOFF_RESULT)])

  function Optional(s: Schema): Schema { SUnion([s, SNone]) }

  const SUMMARY_AND_ITEMS := [Field("summary", SStr), Field("items", STupleOf(SStr))]

  const REQUEST_FIELDS := [
    Field("request_type", SStr), Field("question", SStr), Field("expected_response", SStr),
    Field("substantial_work", SBool)]

  const HANDOFF_REQUEST_FIELDS := [
    Field("reason_code", SStr), Field("summary", SStr), Field("target_requirements", SRecord(REQUIREMENTS))]

  const HANDOFF_RESULT_FIELDS := [Field("summary", SStr), Field("task_result_reference", SStr)]

  const REQUIREMENT_FIELDS := [
    Field("capabilities", STupleOf(SStr)),
    Field("tool_ids", STupleOf(SRecord(TOOL_ID))),
    Field("knowledge_source_ids", STupleOf(SRecord(KNOWLEDGE_SOURCE_ID))),
    Field("memory_scopes", STupleOf(SRecord(MEMORY_SCOPE))),
    Field("min_autonomy", SInt),
    Field("capability_ids", STupleOf(SRecord(CAPABILITY_ID))),
    Field("required_department", Optional(SRecord(DEPARTMENT_ID))),
    Field("preferred_department", Optional(SRecord(DEPARTMENT_ID))),
    Field("organizational_role", Optional(SRecord(ORG_ROLE_ID)))]

  const REFERENCE_FIELDS := [
    Field("kind", SEnum(REFERENCE_KIND)), Field("reference_id", SStr),
    Field("workspace_id", SRecord(WORKSPACE_ID)), Field("source_agent_run_id", SRecord(AGENT_RUN_ID))]

  /** The fields of a message before its payload, and those after it. */
  const SENDER_FIELDS := [
    Field("id", SRecord(MESSAGE_ID)),
    Field("workspace_id", SRecord(WORKSPACE_ID)),
    Field("orchestration_run_id", SRecord(ORCHESTRATION_RUN_ID)),
    Field("thread_id", SRecord(THREAD_ID)),
    Field("sender_agent_run_id", SRecord(AGENT_RUN_ID)),
    Field("sender_definition_id", SRecord(AGENT_DEFINITION_ID)),
    Field("sender_definition_version", SRecord(VERSION)),
    Field("recipient_agent_run_id", SRecord(AGENT_RUN_ID)),
    Field("recipient_definition_id", SRecord(AGENT_DEFINITION_ID)),
    Field("recipient_definition_version", SRecord(VERSION)),
    Field("sender_task_id", SRecord(TASK_ID)),
    Field("sender_delegation_id", SRecord(DELEGATION_ID)),
    Field("recipient_task_id", SRecord(TASK_ID)),
    Field("recipient_delegation_id", SRecord(DELEGATION_ID)),
    Field("kind", SEnum(MESSAGE_KIND))]

  const DELIVERY_FIELDS := [
    Field("references", STupleOf(SRecord(REFERENCE))),
    Field("correlation_id", SStr),
    Field("created_at", STime),
    Field("deadline", STime),
    Field("policy_version", SStr),
    Field("in_reply_to", Optional(SRecord(MESSAGE_ID))),
    Field("status", SEnum(MESSAGE_STATUS)),
    Field("version", SRecord(VERSION)),
    Field("delivered_at", Optional(STime)),
    Field("ended_at", Optional(STime)),
    Field("status_reason", Optional(SStr)),
    Field("schema_version", SInt)]

  const MESSAGE_FIELDS := SENDER_FIELDS + [Field("payload", MESSAGE_PAYLOAD)] + DELIVERY_FIELDS

  const PAYLOAD_AT := 15

  /** The registered fields of each class; the last classes are the ids. */
  function RegisteredFields(c: ClassId): seq<Field> {
    if c == INFORMATION || c == RESPONSE then SUMMARY_AND_ITEMS
    else if c == REQUEST then REQUEST_FIELDS
    else if c == HANDOFF_REQUEST then HANDOFF_REQUEST_FIELDS
    else if c == HANDOFF_RESULT then HANDOFF_RESULT_FIELDS
    else if c == REQUIREMENTS then REQUIREMENT_FIELDS
    else if c == MEMORY_SCOPE then [Field("kind", SEnum(MEMORY_SCOPE_KIND)), Field("key", SStr)]
    else if c == VERSION then [Field("value", SInt)]
    else if c == REFERENCE then REFERENCE_FIELDS
    else if c == MESSAGE then MESSAGE_FIELDS
    else [Field("value", SStr)]
  }

  /** The registry as far as messages lead; information and response have the same fields and the same check.
      Any other classes may be registered besides. */
  ghost predicate MessageContext(ctx: Context) {
    && (forall c: ClassId | INFORMATION <= c <= MESSAGE_ID :: c in ctx.table && ctx.table[c] == RegisteredFields(c))
    && (forall values :: ctx.accepts(INFORMATION, values) == ctx.accepts(RESPONSE, values))
  }

  // ---------- Everything but the payload union is unambiguous ----------

  /** All these classes but the message itself. */
  const PART_CLASSES: set<ClassId> := set c: ClassId | INFORMATION <= c <= MESSAGE_ID && c != MESSAGE

  predicate Plain(s: Schema) {
    s.SStr? || s.SInt? || s.SBool? || s.STime? || s.SEnum? || (s.SRecord? && s.cls in PART_CLASSES)
  }

  /** A plain schema, a tuple of one, or one that may be missing. */
  predicate Simple(s: Schema) {
    || Plain(s)
    || (s.STupleOf? && Plain(s.item))
    || (s.SUnion? && |s.options| == 2 && Plain(s.options[0]) && s.options[1] == SNone)
  }

  predicate AllSimple(fields: seq<Field>) {
    forall i | 0 <= i < |fields| :: Simple(fields[i].schema)
  }

  lemma PlainIsSafe(ctx: Context, s: Schema)
    requires Plain(s)
    ensures Safe(ctx, PART_CLASSES, s) && KNull !in Kinds(ctx, s)
  {
  }

  lemma SimpleIsSafe(ctx: Context, s: Schema)
    requires Simple(s)
    ensures Safe(ctx, PART_CLASSES, s)
  {
    match s
    case STupleOf(item) => PlainIsSafe(ctx, item);
    case SUnion(options) => PlainIsSafe(ctx, options[0]);
    case _ => PlainIsSafe(ctx, s);
  }

  lemma PayloadsAreSimple()
    ensures AllSimple(SUMMARY_AND_ITEMS) && AllSimple(REQUEST_FIELDS)
    ensures AllSimple(HANDOFF_REQUEST_FIELDS) && AllSimple(HANDOFF_RESULT_FIELDS) && AllSimple(REFERENCE_FIELDS)
  {
  }

  lemma RequirementsAreSimple()
    ensures AllSimple(REQUIREMENT_FIELDS)
  {
  }

  lemma SendersAreSimple()
    ensures |SENDER_FIELDS| == PAYLOAD_AT && AllSimple(SENDER_FIELDS)
  {
  }

  lemma DeliveriesAreSimple()
    ensures |DELIVERY_FIELDS| == 12 && AllSimple(DELIVERY_FIELDS)
  {
  }

  lemma PartsAreSimple(c: ClassId)
    requires c in PART_CLASSES
    ensures AllSimple(RegisteredFields(c))
  {
    PayloadsAreSimple();
    RequirementsAreSimple();
  }

  /** The payload classes meet the round trip's hypothesis in any registry that holds the message class. */
  lemma PartsAreUnambiguous(ctx: Context, s: Schema)
    requires MessageContext(ctx) && Simple(s)
    ensures UnambiguousFrom(ctx, PART_CLASSES, s)
  {
    forall c, i | c in PART_CLASSES && c in ctx.table && 0 <= i < |ctx.table[c]|
      ensures Safe(ctx, PART_CLASSES, ctx.table[c][i].schema)
    {
      PartsAreSimple(c);
      SimpleIsSafe(ctx, ctx.table[c][i].schema);
    }
    SimpleIsSafe(ctx, s);
  }

  // ---------- The payload union ----------

  lemma NamedKeys(fields: seq<Field>, name: string, k: nat)
    requires k < |fields| && fields[k].name == name
    ensures name in Keys(Names(fields))
  {
    assert Names(fields)[k] == name;
  }

  lemma PayloadKeysDiffer(ctx: Context)
    requires MessageContext(ctx)
    ensures forall c, d | c in {INFORMATION, REQUEST, RESPONSE, HANDOFF_REQUEST, HANDOFF_RESULT}
              && d in {REQUEST, HANDOFF_REQUEST, HANDOFF_RESULT} && c != d ::
              Keys(Names(ctx.table[c])) != Keys(Names(ctx.table[d]))
  {
    NamedKeys(ctx.table[REQUEST], "question", 1);
    NamedKeys(ctx.table[HANDOFF_REQUEST], "reason_code", 0);
    NamedKeys(ctx.table[HANDOFF_RESULT], "task_result_reference", 1);
  }

  /** A response encodes like an information payload, which is tried first. */
  lemma ResponseReadsAsInformation(ctx: Context, v: Value)
    requires WellFormed(ctx) && MessageContext(ctx) && HasType(ctx, v, SRecord(RESPONSE))
    ensures Encode(ctx, v).Some?
    ensures Decode(ctx, Encode(ctx, v).value, SRecord(INFORMATION)) == Some(VRecord(INFORMATION, v.values))
  {
    var twin := VRecord(INFORMATION, v.values);
    assert HasType(ctx, twin, SRecord(INFORMATION));
    PartsAreUnambiguous(ctx, SRecord(INFORMATION));
    PartsAreUnambiguous(ctx, SRecord(RESPONSE));
    RoundTrip(ctx, PART_CLASSES, twin, SRecord(INFORMATION));
    RoundTrip(ctx, PART_CLASSES, v, SRecord(RESPONSE));
  }

  lemma FirstAt<T>(parts: seq<Option<T>>, k: nat)
    requires k < |parts| && parts[k].Some? && forall i | 0 <= i < k :: parts[i].None?
    ensures First(parts) == parts[k]
  {
  }

  lemma FirstIsFound(ctx: Context, j: Json, options: seq<Schema>, k: nat)
    requires k < |options| && Decode(ctx, j, options[k]).Some?
    requires forall i | 0 <= i < k :: Decode(ctx, j, options[i]).None?
    ensures Decode(ctx, j, SUnion(options)) == Decode(ctx, j, options[k])
  {
    FirstAt(seq(|options|, i requires 0 <= i < |options| => Decode(ctx, j, options[i])), k);
  }

  /** The union's options, in order. */
  ghost predicate PayloadOptions(options: seq<Schema>) {
    |options| == 5 && forall i | 0 <= i < 5 :: options[i] == SRecord(PAYLOAD_CLASSES[i])
  }

  lemma EarlierOptionsFail(ctx: Context, v: Value, j: Json, options: seq<Schema>, k: nat)
    requires WellFormed(ctx) && MessageContext(ctx) && Encode(ctx, v) == Some(j) && PayloadOptions(options)
    requires k < 5 && k != 2 && v.VRecord? && v.cls == PAYLOAD_CLASSES[k]
    ensures forall i | 0 <= i < k :: Decode(ctx, j, options[i]).None?
  {
    forall i | 0 <= i < k ensures Decode(ctx, j, options[i]).None? {
      PayloadKeysDiffer(ctx);
      DifferentFieldsNeverShare(ctx, v, PAYLOAD_CLASSES[i]);
    }
  }

  /** A response in the union is read as something else. */
  lemma ResponseIsMistaken(ctx: Context, v: Value, options: seq<Schema>)
    requires WellFormed(ctx) && MessageContext(ctx) && HasType(ctx, v, SRecord(RESPONSE)) && PayloadOptions(options)
    ensures Encode(ctx, v).Some?
    ensures Decode(ctx, Encode(ctx, v).value, SUnion(options)) == Some(VRecord(INFORMATION, v.values))
  {
    ResponseReadsAsInformation(ctx, v);
    FirstIsFound(ctx, Encode(ctx, v).value, options, 0);
  }

  lemma OtherPayloadIsAccepted(ctx: Context, v: Value, options: seq<Schema>, k: nat)
    requires WellFormed(ctx) && MessageContext(ctx) && PayloadOptions(options)
    requires k < 5 && k != 2 && v.VRecord? && v.cls == PAYLOAD_CLASSES[k] && HasType(ctx, v, SRecord(v.cls))
    ensures ReadsBackExactly(ctx, v, SUnion(options))
  {
    PartsAreUnambiguous(ctx, SRecord(v.cls));
    RoundTrip(ctx, PART_CLASSES, v, SRecord(v.cls));
    var j := Encode(ctx, v).value;
    EarlierOptionsFail(ctx, v, j, options, k);
    FirstIsFound(ctx, j, options, k);
    EqualToItself(ctx, v);
  }

  lemma PayloadClass(ctx: Context, v: Value, options: seq<Schema>) returns (k: nat)
    requires PayloadOptions(options) && HasType(ctx, v, SUnion(options))
    ensures k < 5 && v.VRecord? && v.cls == PAYLOAD_CLASSES[k] && HasType(ctx, v, SRecord(v.cls))
    ensures k == 2 <==> v.cls == RESPONSE
  {
    k :| 0 <= k < |options| && HasType(ctx, v, options[k]);
  }

  /** The codec is not total on message payloads: it refuses the responses, and only them. */
  lemma ExactlyResponsesAreRefused(ctx: Context, v: Value)
    requires WellFormed(ctx) && MessageContext(ctx) && HasType(ctx, v, MESSAGE_PAYLOAD)
    ensures v.VRecord?
    ensures if v.cls == RESPONSE
      then EncodeValue(ctx, v, MESSAGE_PAYLOAD).None? else ReadsBackExactly(ctx, v, MESSAGE_PAYLOAD)
  {
    var k := PayloadClass(ctx, v, MESSAGE_PAYLOAD.options);
    if k == 2 {
      ResponseIsMistaken(ctx, v, MESSAGE_PAYLOAD.options);
    } else {
      OtherPayloadIsAccepted(ctx, v, MESSAGE_PAYLOAD.options, k);
    }
  }

  // ---------- The message record ----------

  lemma MessageFieldsAreSimple(i: nat)
    requires i < |MESSAGE_FIELDS| && i != PAYLOAD_AT
    ensures Simple(MESSAGE_FIELDS[i].schema)
  {
    SendersAreSimple();
    DeliveriesAreSimple();
    if i < PAYLOAD_AT {
      assert MESSAGE_FIELDS[i] == SENDER_FIELDS[i];
    } else {
      assert MESSAGE_FIELDS[i] == DELIVERY_FIELDS[i - PAYLOAD_AT - 1];
    }
  }

  lemma PayloadField()
    ensures |MESSAGE_FIELDS| == 28 && MESSAGE_FIELDS[PAYLOAD_AT] == Field("payload", MESSAGE_PAYLOAD)
  {
  }

  /** A record whose members read back exactly does so itself. */
  lemma MembersMakeRecord(ctx: Context, v: Value)
    requires WellFormed(ctx) && v.VRecord? && HasType(ctx, v, SRecord(v.cls))
    requires forall i | 0 <= i < |v.values| :: MemberReads(ctx, v, i)
    ensures ReadsBackExactly(ctx, v, SRecord(v.cls))
  {
    forall i | 0 <= i < |v.values|
      ensures Encode(ctx, v.values[i]).Some?
      ensures Decode(ctx, Encode(ctx, v.values[i]).value, ctx.table[v.cls][i].schema) == Some(v.values[i])
    {
      assert MemberReads(ctx, v, i);
    }
    EncodesAll(ctx, v.values);
    RecordReads(ctx, v.cls, v.values, Encode(ctx, v).value.members);
    EqualToItself(ctx, v);
  }

  ghost predicate MemberReads(ctx: Context, v: Value, i: nat)
    requires v.VRecord? && v.cls in ctx.table && |v.values| == |ctx.table[v.cls]| && i < |v.values|
  {
    var s := ctx.table[v.cls][i].schema;
    Encode(ctx, v.values[i]).Some? && Decode(ctx, Encode(ctx, v.values[i]).value, s) == Some(v.values[i])
  }

  /** Each member of a well-typed message but its payload reads back exactly. */
  lemma OtherMembersRead(ctx: Context, v: Value, i: nat)
    requires WellFormed(ctx) && MessageContext(ctx) && HasType(ctx, v, SRecord(MESSAGE))
    requires i < |MESSAGE_FIELDS| && i != PAYLOAD_AT
    ensures MemberReads(ctx, v, i)
  {
    MessageFieldsAreSimple(i);
    PartsAreUnambiguous(ctx, MESSAGE_FIELDS[i].schema);
    RoundTrip(ctx, PART_CLASSES, v.values[i], MESSAGE_FIELDS[i].schema);
  }

  /** Whatever reads a record's encoding as its class gives each member what reads that member. */
  lemma RecordMember(ctx: Context, cls: ClassId, members: seq<Json>, k: nat)
    requires WellFormed(ctx) && cls in ctx.table && |members| == |ctx.table[cls]| && k < |members|
    ensures var read := Decode(ctx, JObject(Names(ctx.table[cls]), members), SRecord(cls));
      read.Some? ==>
        && read.value.VRecord? && k < |read.value.values|
        && Decode(ctx, members[k], ctx.table[cls][k].schema) == Some(read.value.values[k])
  {
    var fields := ctx.table[cls];
    var j := JObject(Names(fields), members);
    if Decode(ctx, j, SRecord(cls)).Some? {
      var parts := seq(|fields|, i requires 0 <= i < |fields| =>
                       if fields[i].name !in j.keys then None
                       else Decode(ctx, j.members[IndexOf(j.keys, fields[i].name)], fields[i].schema));
      assert Names(fields)[k] == fields[k].name;
      IndexOfDistinct(Names(fields), k);
      assert parts[k].Some?;
    }
  }

  /** A record with a member that reads as something unequal is refused. */
  lemma MistakenMemberRefuses(ctx: Context, v: Value, k: nat)
    requires WellFormed(ctx) && v.VRecord? && v.cls in ctx.table && |v.values| == |ctx.table[v.cls]| && k < |v.values|
    requires Encode(ctx, v.values[k]).Some?
    requires Decode(ctx, Encode(ctx, v.values[k]).value, ctx.table[v.cls][k].schema).Some?
    requires !PyEq(Decode(ctx, Encode(ctx, v.values[k]).value, ctx.table[v.cls][k].schema).value, v.values[k])
    ensures EncodeValue(ctx, v, SRecord(v.cls)).None?
  {
    if Encode(ctx, v).Some? {
      RecordMember(ctx, v.cls, Encode(ctx, v).value.members, k);
    }
  }

  lemma OtherMessageIsAccepted(ctx: Context, v: Value)
    requires WellFormed(ctx) && MessageContext(ctx) && HasType(ctx, v, SRecord(MESSAGE))
    requires ReadsBackExactly(ctx, v.values[PAYLOAD_AT], MESSAGE_PAYLOAD)
    ensures ReadsBackExactly(ctx, v, SRecord(MESSAGE))
  {
    PayloadField();
    forall i | 0 <= i < |v.values| ensures MemberReads(ctx, v, i) {
      if i != PAYLOAD_AT {
        OtherMembersRead(ctx, v, i);
      }
    }
    MembersMakeRecord(ctx, v);
  }

  lemma ResponseMemberRefuses(ctx: Context, v: Value, k: nat, options: seq<Schema>)
    requires WellFormed(ctx) && MessageContext(ctx) && PayloadOptions(options)
    requires v.VRecord? && v.cls in ctx.table && |v.values| == |ctx.table[v.cls]| && k < |v.values|
    requires ctx.table[v.cls][k].schema == SUnion(options) && HasType(ctx, v.values[k], SRecord(RESPONSE))
    ensures EncodeValue(ctx, v, SRecord(v.cls)).None?
  {
    ResponseIsMistaken(ctx, v.values[k], options);
    MistakenMemberRefuses(ctx, v, k);
  }

  lemma ResponseMessageIsRefused(ctx: Context, v: Value)
    requires WellFormed(ctx) && MessageContext(ctx) && HasType(ctx, v, SRecord(MESSAGE))
    requires HasType(ctx, v.values[PAYLOAD_AT], SRecord(RESPONSE))
    ensures EncodeValue(ctx, v, SRecord(MESSAGE)).None?
  {
    PayloadField();
    ResponseMemberRefuses(ctx, v, PAYLOAD_AT, MESSAGE_PAYLOAD.options);
  }

  /** Of the well-typed messages the registry can hold, exactly those that carry a response are refused;
      every other one is written and read back as itself. */
  lemma ExactlyResponseMessagesAreRefused(ctx: Context, v: Value, j: Json)
    requires WellFormed(ctx) && MessageContext(ctx) && HasType(ctx, v, SRecord(MESSAGE))
    ensures v.values[PAYLOAD_AT].VRecord?
    ensures v.values[PAYLOAD_AT].cls == RESPONSE <==> EncodeRecord(ctx, v).None?
    ensures EncodeRecord(ctx, v).Some? && SameTree(EncodeRecord(ctx, v).value, j) ==>
              DecodeRecord(ctx, j, MESSAGE) == Some(v)
  {
    PayloadField();
    var payload := v.values[PAYLOAD_AT];
    assert HasType(ctx, payload, ctx.table[MESSAGE][PAYLOAD_AT].schema);
    ExactlyResponsesAreRefused(ctx, payload);
    var k := PayloadClass(ctx, payload, MESSAGE_PAYLOAD.options);
    if payload.cls == RESPONSE {
      ResponseMessageIsRefused(ctx, v);
    } else {
      OtherMessageIsAccepted(ctx, v);
      ExactRecordsRoundTrip(ctx, v, j);
    }
  }
}
