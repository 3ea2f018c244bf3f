# JSON attribute validator — a Dafny model

This project models `JsonValidator`, an ActiveModel validator that checks a
record attribute against a JSON Schema. It covers three parts of the validator:

- The setter the validator installs for each validated attribute. Assigning a
  string decodes it as JSON. If decoding fails, the raw string is kept in a
  per-attribute "invalid JSON" flag and `{}` is stored. Every assignment clears
  the flag first.
- Schema resolution. The configured schema may be a literal, a callback
  evaluated in the record's context, or the name of a record method. Callbacks
  and method names are followed until a literal is reached. A nil or false
  result restarts from the configured schema (Ruby's `||=`).
- The validation step. The value is serialised, checked against the schema,
  and one error is appended per violation, tagged with the message key
  (`invalid_json` unless one is configured).

The JSON codec (`ActiveSupport::JSON`), the schema library (`JSONSchemer`) and
the record class's callbacks and methods are foreign code. They are parameters
here: `Json.Codec` (partial decode, total encode), `JsonValidator.Schemer`
(violations of a text against a schema, and their rendering) and
`JsonValidator.Host` (`instance_exec` of a callback, `send` of a method name).
Nothing is assumed about them beyond their signatures.

Files: `json.dfy` (module `Json`: values, the codec, Ruby truthiness and
`blank?`), `validator.dfy` (module `JsonValidator`: the setter as class
`Record`, resolution, validation as class `Validator`).

`options[:options]` is defaulted to `{}` (validator.rb:7) but never passed to
the schema library (validator.rb:18), so the model has no such option.

## Model

| member | source | states |
|---|---|---|
| `JsonValidator.Record.Assign` | lib/active_record/json_validator/validator.rb:39-48 | The generated setter. The flag is cleared, then set only on a failed decode. The attribute's new value and flag equal `Assigned(decode, arg)` and do not depend on any earlier assignment. Every other attribute's value and flag is unchanged. |
| `JsonValidator.Record.Write` | lib/active_record/json_validator/validator.rb:43-46 | The original setter reached through `super`. It stores the given value under the attribute and changes nothing else. |
| `JsonValidator.NonStringStoredUnchanged` | lib/active_record/json_validator/validator.rb:42-43 | A non-string argument is stored unchanged, with no decode, and the flag stays nil. |
| `JsonValidator.DecodedStringStored` | lib/active_record/json_validator/validator.rb:42-43 | A string that decodes is replaced by its decoded value, and the flag stays nil. |
| `JsonValidator.MalformedStringFlagged` | lib/active_record/json_validator/validator.rb:44-46 | A string that fails to decode sets the flag to exactly that string and stores `{}`. |
| `JsonValidator.FlagOnlyFromFailedDecode` | lib/active_record/json_validator/validator.rb:41-46 | The flag is set if and only if the argument is a string that fails to decode. When set, it holds the argument itself. |
| `JsonValidator.Resolve` | lib/active_record/json_validator/validator.rb:55-62 | Resolution ends in nil or false only when the configured schema is that same literal. Each callback or method result is resolved again, and a nil or false result restarts from the configured schema. |
| `JsonValidator.ResolveLiteralFixedPoint` | lib/active_record/json_validator/validator.rb:61 | A literal that is neither nil nor false resolves to itself. |
| `JsonValidator.ResolveProcStep` | lib/active_record/json_validator/validator.rb:59 | A callback is evaluated in the record's context, and its result is resolved again. |
| `JsonValidator.ResolveSymbolStep` | lib/active_record/json_validator/validator.rb:60 | A method name is sent to the record, and its result is resolved again. |
| `JsonValidator.ResolveFalsyRestarts` | lib/active_record/json_validator/validator.rb:56 | A nil or false argument, including the omitted one in `schema(record)`, resolves as the configured schema does. |
| `JsonValidator.ResolveFuelMonotone` | lib/active_record/json_validator/validator.rb:55-62 | Once resolution succeeds within some depth, any larger depth gives the same schema. The result does not depend on the depth bound. |
| `JsonValidator.CycleNeverResolves` | lib/active_record/json_validator/validator.rb:55-62 | There is no cycle guard. A callback or method whose result leads straight back to itself never resolves, at any depth. This includes returning nil when it is itself the configured schema. |
| `JsonValidator.TextValidatedAfterAssign` | lib/active_record/json_validator/validator.rb:65-69 | The text checked after an assignment is one of four things. A non-string argument is encoded. Malformed input is checked as the encoding of `{}`. A decoded non-string is re-encoded. A decoded JSON string is passed through verbatim. |
| `JsonValidator.RenderViolations` | lib/active_record/json_validator/validator.rb:20 | Every violation is rendered, in order: one message per violation. |
| `JsonValidator.Recorded` | lib/active_record/json_validator/validator.rb:23-27 | Exactly one error per message, with the attribute, the key and that message. The blank-flag early return never changes the result. |
| `JsonValidator.ValidationErrors` | lib/active_record/json_validator/validator.rb:16-27 | Once the schema is resolved, the number of errors equals the number of schema violations of the serialised value. All errors are on the validated attribute, with the same key. |
| `JsonValidator.FlagNeverChangesErrors` | lib/active_record/json_validator/validator.rb:23-27 | The appended errors are the same whatever the invalid-JSON flag holds. |
| `JsonValidator.NoViolationsNoErrors` | lib/active_record/json_validator/validator.rb:23-27 | With no violations nothing is appended, even when the flag holds malformed input. |
| `JsonValidator.MalformedInputErrors` | lib/active_record/json_validator/validator.rb:23-27 | After assigning malformed input, the flag holds it. The number of errors equals the number of violations of `{}`, so a schema accepting `{}` yields none. |
| `JsonValidator.Validator.ValidateEach` | lib/active_record/json_validator/validator.rb:16-27 | Called for one of the validator's attributes. If the schema resolves, the record's errors grow by exactly `ValidationErrors` for the attribute's current value and flag, with the memoised message key. If it does not resolve, nothing is recorded. Values and flags are untouched, so validating an unchanged record again appends the same errors. |
| `JsonValidator.Validator.Message` | lib/active_record/json_validator/validator.rb:71-73 | The key is the configured message, or `invalid_json` when none is configured. It is memoised, and the memo always holds that same key. |
| `JsonValidator.Validator.constructor` | lib/active_record/json_validator/validator.rb:4-8 | Stores the attributes, the schema source and the message option. Nothing is memoised yet. |

## Left out

- The schema library's schema compilation, validation and error rendering. These are the `Schemer` parameter, with no properties assumed.
- Exceptions raised by the schema library or by a callback or method during `validate_each`, such as a schema the library rejects or a method name the record does not define. In the source these propagate before anything is recorded. The `Schemer` and `Host` parameters are total functions, so `Validator.ValidateEach` does not model that path.
- The JSON codec's internals. Decoding is a partial function and encoding a total one, with no round trip assumed.
- Floating-point numbers, symbols and other Ruby objects as attribute values. `Json.Value` holds nil, booleans, integers, strings, arrays and string-keyed hashes.
- `inject_setter_method`'s `class_eval`, `attr_reader` and `define_method` metaprogramming. Class `Record` stands for a record class after the setter is installed. `Record.Write` stands for `super`: it stores the value as given, and the framework's type casting is not modelled.
- The `options.reverse_merge!` defaults, `@attributes` registration and the rest of the `EachValidator` plumbing. The constructor takes the options after defaulting.
- The framework's error collection beyond one sequence of (attribute, key, detail) errors per record.
- Ruby's `instance_exec` and `send` semantics. Callbacks and method names are mapped to their results by the `Host` parameter, from the record's attribute values.
- Unbounded recursion. Resolution carries a depth bound (`fuel`), and running out of it stands for Ruby's stack overflow. `Validator.ValidateEach` then records nothing and returns false instead of raising.
- Errors raised by `super` inside the setter's `rescue` block. The original setter is assumed not to raise.
- `blank?` is modelled for nil and strings only, which is all the flag can hold.
