/** The JSON attribute validator: the intercepting setter with its
    invalid-JSON flag, schema resolution, and the validation step that
    records one error per schema violation. */
module JsonValidator {
  import opened Json

  type Attribute = string

  /** What a schema callback or method sees of the record: its attribute values. */
  type Context = map<Attribute, Value>

  /** A schema source: a literal schema (a hash, a path string, ... or nil/false),
      a callback evaluated in the record's context, or the name of a method
      of the record. Callbacks are identified by number. */
  datatype Source = Literal(v: Value) | Proc(id: nat) | Symbol(name: string)

  /** The record class's side of resolution: `instance_exec` of a callback and
      `send` of a method name, each yielding another source. */
  datatype Host = Host(instanceExec: (Context, nat) -> Source, send: (Context, string) -> Source)

  /** One violation reported by the schema library. */
  datatype Violation = Violation(dataPointer: string, schemaPointer: string, kind: string)

  /** The schema library: the violations of a text against a schema, and
      the human-readable rendering of one violation. */
  datatype Schemer = Schemer(validate: (Value, string) -> seq<Violation>, pretty: Violation -> string)

  /** An error as added to the record: attribute, message key, detail. */
  datatype Error = Error(attribute: Attribute, key: string, detail: string)

  /** The outcome of one assignment to an attribute: the value handed to the
      original setter and the new invalid-JSON flag. */
  datatype Assignment = Assignment(stored: Value, flag: Option<string>)

  /** Message key used when none is configured. */
  const DefaultMessage: string := "invalid_json"

  // ---------------------------------------------------------------------
  // Setter interception

  /** What the generated `attribute=` setter does with its argument: a string
      is decoded; a string that fails to decode is remembered in the flag and
      `{}` is stored; any other value is stored as it is. */
  function Assigned(decode: string -> Option<Value>, arg: Value): Assignment {
    if arg.Str? then
      match decode(arg.s)
      case Some(d) => Assignment(d, None)
      case None => Assignment(EmptyHash, Some(arg.s))
    else
      Assignment(arg, None)
  }

  lemma NonStringStoredUnchanged(decode: string -> Option<Value>, arg: Value)
    requires !arg.Str?
    ensures Assigned(decode, arg) == Assignment(arg, None)
  {
  }

  lemma DecodedStringStored(decode: string -> Option<Value>, s: string, d: Value)
    requires decode(s) == Some(d)
    ensures Assigned(decode, Str(s)) == Assignment(d, None)
  {
  }

  lemma MalformedStringFlagged(decode: string -> Option<Value>, s: string)
    requires decode(s).None?
    ensures Assigned(decode, Str(s)) == Assignment(EmptyHash, Some(s))
  {
  }

  /** The flag is set exactly by a string that fails to decode, and then it
      holds that very string. */
  lemma FlagOnlyFromFailedDecode(decode: string -> Option<Value>, arg: Value)
    ensures Assigned(decode, arg).flag.Some? <==> arg.Str? && decode(arg.s).None?
    ensures Assigned(decode, arg).flag.Some? ==> arg == Str(Assigned(decode, arg).flag.value)
  {
  }

  /** A record of the class the validator was attached to, after the setter
      has been injected. Only the validated attributes' state is modelled. */
  class Record {
    var values: map<Attribute, Value>
    var invalidJson: map<Attribute, string>
    var errors: seq<Error>

    constructor ()
      ensures values == map[] && invalidJson == map[] && errors == []
    {
      values, invalidJson, errors := map[], map[], [];
    }

    /** The attribute's current value; an attribute never set reads as nil. */
    function Read(attribute: Attribute): Value
      reads this
    {
      if attribute in values then values[attribute] else Nil
    }

    /** The generated `attribute_invalid_json` reader. */
    function InvalidJson(attribute: Attribute): Option<string>
      reads this
    {
      if attribute in invalidJson then Some(invalidJson[attribute]) else None
    }

    /** The original (overridden) setter that the generated one calls with `super`. */
    method Write(attribute: Attribute, v: Value)
      modifies this`values
      ensures values == old(values)[attribute := v]
    {
      values := values[attribute := v];
    }

    /** The generated `attribute=` setter. */
    method Assign(attribute: Attribute, arg: Value, decode: string -> Option<Value>)
      modifies this`values, this`invalidJson
      ensures values == old(values)[attribute := Assigned(decode, arg).stored]
      ensures invalidJson == match Assigned(decode, arg).flag
                             case None => old(invalidJson) - {attribute}
                             case Some(raw) => old(invalidJson)[attribute := raw]
      ensures Assignment(Read(attribute), InvalidJson(attribute)) == Assigned(decode, arg)
      ensures forall a :: a != attribute ==> Read(a) == old(Read(a)) && InvalidJson(a) == old(InvalidJson(a))
    {
      invalidJson := invalidJson - {attribute};
      if arg.Str? {
        match decode(arg.s)
        case Some(d) =>
          Write(attribute, d);
        case None =>
          invalidJson := invalidJson[attribute := arg.s];
          Write(attribute, EmptyHash);
      } else {
        Write(attribute, arg);
      }
    }
  }

  // ---------------------------------------------------------------------
  // Schema resolution

  /** `schema ||= options.fetch(:schema)`: nil and false give way to the configured source. */
  function Normalize(configured: Source, schema: Source): Source {
    if schema.Literal? && Falsy(schema.v) then configured else schema
  }

  /** Follows callbacks and method names until a literal is reached. `fuel`
      bounds the number of callback and method evaluations and stands in for
      the interpreter's stack depth: None is the stack overflow a cyclic
      configuration causes. */
  function Resolve(ctx: Context, host: Host, configured: Source, schema: Source, fuel: nat): (r: Option<Value>)
    ensures r.Some? && Falsy(r.value) ==> configured == Literal(r.value)
    decreases fuel
  {
    match Normalize(configured, schema)
    case Literal(v) => Some(v)
    case Proc(p) =>
      if fuel == 0 then None else Resolve(ctx, host, configured, host.instanceExec(ctx, p), fuel - 1)
    case Symbol(m) =>
      if fuel == 0 then None else Resolve(ctx, host, configured, host.send(ctx, m), fuel - 1)
  }

  /** `schema(record)`: resolution starting from the omitted (nil) argument. */
  function SchemaOf(ctx: Context, host: Host, configured: Source, fuel: nat): Option<Value> {
    Resolve(ctx, host, configured, Literal(Nil), fuel)
  }

  lemma ResolveLiteralFixedPoint(ctx: Context, host: Host, configured: Source, v: Value, fuel: nat)
    requires !Falsy(v)
    ensures Resolve(ctx, host, configured, Literal(v), fuel) == Some(v)
  {
  }

  lemma ResolveProcStep(ctx: Context, host: Host, configured: Source, p: nat, fuel: nat)
    ensures Resolve(ctx, host, configured, Proc(p), fuel + 1)
         == Resolve(ctx, host, configured, host.instanceExec(ctx, p), fuel)
  {
  }

  lemma ResolveSymbolStep(ctx: Context, host: Host, configured: Source, m: string, fuel: nat)
    ensures Resolve(ctx, host, configured, Symbol(m), fuel + 1)
         == Resolve(ctx, host, configured, host.send(ctx, m), fuel)
  {
  }

  /** A nil or false source, including the omitted argument, restarts from the
      configured one. */
  lemma ResolveFalsyRestarts(ctx: Context, host: Host, configured: Source, v: Value, fuel: nat)
    requires Falsy(v)
    ensures Resolve(ctx, host, configured, Literal(v), fuel) == Resolve(ctx, host, configured, configured, fuel)
    ensures SchemaOf(ctx, host, configured, fuel) == Resolve(ctx, host, configured, configured, fuel)
  {
  }

  /** Once resolution succeeds, more stack depth gives the same schema. */
  lemma {:induction false} ResolveFuelMonotone(ctx: Context, host: Host, configured: Source, schema: Source, fuel: nat, more: nat)
    requires fuel <= more
    requires Resolve(ctx, host, configured, schema, fuel).Some?
    ensures Resolve(ctx, host, configured, schema, more) == Resolve(ctx, host, configured, schema, fuel)
    decreases fuel
  {
    match Normalize(configured, schema)
    case Literal(_) =>
    case Proc(p) =>
      ResolveFuelMonotone(ctx, host, configured, host.instanceExec(ctx, p), fuel - 1, more - 1);
    case Symbol(m) =>
      ResolveFuelMonotone(ctx, host, configured, host.send(ctx, m), fuel - 1, more - 1);
  }

  /** The one step a callback or method name takes, after `||=`. */
  function Next(ctx: Context, host: Host, configured: Source, schema: Source): Source
    requires !schema.Literal?
  {
    Normalize(configured, if schema.Proc? then host.instanceExec(ctx, schema.id) else host.send(ctx, schema.name))
  }

  /** No cycle guard: a callback or method that leads back to itself (directly,
      or by answering nil when it is itself the configured source) never resolves. */
  lemma {:induction false} CycleNeverResolves(ctx: Context, host: Host, configured: Source, schema: Source, fuel: nat)
    requires !schema.Literal?
    requires Next(ctx, host, configured, schema) == schema
    ensures Resolve(ctx, host, configured, schema, fuel) == None
    decreases fuel
  {
    if fuel > 0 {
      CycleNeverResolves(ctx, host, configured, schema, fuel - 1);
    }
  }

  // ---------------------------------------------------------------------
  // Validation

  /** The text handed to the schema library: a string as it is, anything else encoded. */
  function ValidatableValue(encode: Value -> string, value: Value): string {
    if value.Str? then value.s else encode(value)
  }

  /** Each violation rendered for humans, in order. */
  function Rendered(pretty: Violation -> string, violations: seq<Violation>): seq<string> {
    seq(|violations|, i requires 0 <= i < |violations| => pretty(violations[i]))
  }

  /** One error per message, all on `attribute` with `key`. */
  function Tagged(attribute: Attribute, key: string, messages: seq<string>): seq<Error> {
    seq(|messages|, i requires 0 <= i < |messages| => Error(attribute, key, messages[i]))
  }

  /** The errors `validate_each` appends for the rendered messages: nothing
      when there are none and the flag is blank, otherwise one per message.
      Either way the flag never changes the result. */
  function Recorded(attribute: Attribute, key: string, messages: seq<string>, flag: Option<string>): (r: seq<Error>)
    ensures |r| == |messages|
    ensures forall i :: 0 <= i < |r| ==> r[i] == Error(attribute, key, messages[i])
  {
    if |messages| == 0 && Blank(flag) then [] else Tagged(attribute, key, messages)
  }

  /** The errors validation appends for an attribute holding `value` with flag `flag`,
      once the schema is resolved. */
  function ValidationErrors(attribute: Attribute, key: string, schema: Value, value: Value,
                            flag: Option<string>, codec: Codec, schemer: Schemer): (r: seq<Error>)
    ensures |r| == |schemer.validate(schema, ValidatableValue(codec.encode, value))|
    ensures forall e :: e in r ==> e.attribute == attribute && e.key == key
  {
    Recorded(attribute, key, Rendered(schemer.pretty, schemer.validate(schema, ValidatableValue(codec.encode, value))), flag)
  }

  /** The message key: the configured one, or `invalid_json`. */
  function MessageKey(configured: Option<string>): string {
    if configured.Some? then configured.value else DefaultMessage
  }

  /** The `each_with_object` loop that renders every violation. */
  method RenderViolations(pretty: Violation -> string, violations: seq<Violation>) returns (messages: seq<string>)
    ensures messages == Rendered(pretty, violations)
  {
    messages := [];
    var i := 0;
    while i < |violations|
      invariant 0 <= i <= |violations|
      invariant |messages| == i
      invariant forall j :: 0 <= j < i ==> messages[j] == pretty(violations[j])
    {
      messages := messages + [pretty(violations[i])];
      i := i + 1;
    }
  }

  /** The validator attached to a record class for some attributes. */
  class Validator {
    const attributes: seq<Attribute>
    const schemaOption: Source
    const messageOption: Option<string>
    var message: Option<string>

    /** The memoised message, once computed, is the configured key or the default. */
    ghost predicate Valid()
      reads this
    {
      message.Some? ==> message.value == MessageKey(messageOption)
    }

    /** `initialize`, after the defaults: an absent schema is nil, an absent message is nil. */
    constructor (attributes: seq<Attribute>, schema: Source, message: Option<string>)
      ensures this.attributes == attributes && schemaOption == schema && messageOption == message
      ensures this.message == None && Valid()
    {
      this.attributes := attributes;
      schemaOption := schema;
      messageOption := message;
      this.message := None;
    }

    /** `@message ||= options.fetch(:message) || :invalid_json`. */
    method Message() returns (key: string)
      requires Valid()
      modifies this`message
      ensures Valid() && message == Some(key)
      ensures messageOption.Some? ==> key == messageOption.value
      ensures messageOption.None? ==> key == DefaultMessage
    {
      if message.None? {
        message := Some(if messageOption.Some? then messageOption.value else DefaultMessage);
      }
      key := message.value;
    }

    /** `validate_each`, which the framework calls only for the validator's own
        attributes (the only ones with an `_invalid_json` reader). Answers
        false when schema resolution overflows the stack, in which case
        nothing is recorded. */
    method ValidateEach(rec: Record, attribute: Attribute, codec: Codec, schemer: Schemer, host: Host, depth: nat)
      returns (resolved: bool)
      requires Valid()
      requires attribute in attributes
      modifies rec`errors, this`message
      ensures Valid()
      ensures resolved == SchemaOf(rec.values, host, schemaOption, depth).Some?
      ensures !resolved ==> rec.errors == old(rec.errors)
      ensures resolved ==>
        rec.errors == old(rec.errors) + ValidationErrors(attribute, MessageKey(messageOption),
          SchemaOf(rec.values, host, schemaOption, depth).value, rec.Read(attribute), rec.InvalidJson(attribute), codec, schemer)
    {
      var schema := SchemaOf(rec.values, host, schemaOption, depth);
      if schema.None? {
        return false;
      }
      resolved := true;
      var violations := schemer.validate(schema.value, ValidatableValue(codec.encode, rec.Read(attribute)));
      var messages := RenderViolations(schemer.pretty, violations);
      ghost var key := MessageKey(messageOption);
      ghost var expected := Recorded(attribute, key, messages, rec.InvalidJson(attribute));
      if |messages| == 0 && Blank(rec.InvalidJson(attribute)) {
        return;
      }
      var i := 0;
      while i < |messages|
        invariant 0 <= i <= |messages|
        invariant Valid()
        invariant |rec.errors| == |old(rec.errors)| + i
        invariant rec.errors[..|old(rec.errors)|] == old(rec.errors)
        invariant forall j :: 0 <= j < i ==> rec.errors[|old(rec.errors)| + j] == expected[j]
      {
        var k := Message();
        rec.errors := rec.errors + [Error(attribute, k, messages[i])];
        i := i + 1;
      }
      assert rec.errors == old(rec.errors) + expected;
    }
  }

  // ---------------------------------------------------------------------
  // Properties across setter and validation

  /** The blank check before the loop never matters: the flag does not change
      which errors validation appends. */
  lemma FlagNeverChangesErrors(attribute: Attribute, key: string, schema: Value, value: Value,
                               flag1: Option<string>, flag2: Option<string>, codec: Codec, schemer: Schemer)
    ensures ValidationErrors(attribute, key, schema, value, flag1, codec, schemer)
         == ValidationErrors(attribute, key, schema, value, flag2, codec, schemer)
  {
  }

  /** With no violations nothing is appended, even when the flag holds malformed input. */
  lemma NoViolationsNoErrors(attribute: Attribute, key: string, schema: Value, value: Value,
                             flag: Option<string>, codec: Codec, schemer: Schemer)
    requires schemer.validate(schema, ValidatableValue(codec.encode, value)) == []
    ensures ValidationErrors(attribute, key, schema, value, flag, codec, schemer) == []
  {
  }

  /** The text the schema sees after an assignment: the encoding of what was
      stored, except that a stored string is passed through verbatim. */
  lemma TextValidatedAfterAssign(codec: Codec, arg: Value)
    ensures !arg.Str? ==> ValidatableValue(codec.encode, Assigned(codec.decode, arg).stored) == codec.encode(arg)
    ensures arg.Str? && codec.decode(arg.s).None? ==>
      ValidatableValue(codec.encode, Assigned(codec.decode, arg).stored) == codec.encode(EmptyHash)
    ensures arg.Str? && codec.decode(arg.s).Some? && !codec.decode(arg.s).value.Str? ==>
      ValidatableValue(codec.encode, Assigned(codec.decode, arg).stored) == codec.encode(codec.decode(arg.s).value)
    ensures arg.Str? && codec.decode(arg.s).Some? && codec.decode(arg.s).value.Str? ==>
      ValidatableValue(codec.encode, Assigned(codec.decode, arg).stored) == codec.decode(arg.s).value.s
  {
  }

  /** Malformed input is reported only through the schema check of `{}`: one
      error per violation of `{}`, and none when the schema accepts `{}`. */
  lemma MalformedInputErrors(attribute: Attribute, key: string, schema: Value, s: string, codec: Codec, schemer: Schemer)
    requires codec.decode(s).None?
    ensures Assigned(codec.decode, Str(s)).flag == Some(s)
    ensures |ValidationErrors(attribute, key, schema, Assigned(codec.decode, Str(s)).stored, Some(s), codec, schemer)|
         == |schemer.validate(schema, codec.encode(EmptyHash))|
  {
  }
}
