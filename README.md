# ArgumentsJsonProvider, modelled in Dafny

This project models the arguments provider of logstash-logback-encoder: the
JSON provider that writes a logging event's argument array into the JSON
document of the event.

For each argument, in array order, `writeTo` does one of three things:

- A `StructuredArgument` writes itself into the generator, when structured
  arguments are included.
- Any other argument becomes one field named prefix + index (`arg0`,
  `arg1`, ...), when non-structured arguments are included. The name is
  replaced by its entry in the name-mapping table when it has one. The value
  is the argument's text.
- Otherwise the argument is skipped.

When a wrapper field name is set, the provider opens an object under that
name just before the first item it writes, and closes it at the end only if
it opened it.

The provider also has a configuration side: the include flags, the field
prefix, the raw mapping text and the JSON factory. The mapping table is
rebuilt from the raw text whenever the text or the factory is set and both
are present. A failed decode reports an error and keeps the previous table.

Files:

- `wrappers.dfy`: `Option`, standing for Java's nullable references.
- `decimal.dfy`: the decimal text of the argument index (`prefix + argIndex`
  in Java), with its inverse and injectivity.
- `json_generator.dfy`: the JSON generator as an append-only trace of calls:
  `StartObject(name)`, `Field(name, text)`, `Structured(id)`, `EndObject`.
- `arguments_spec.dfy`: `Emitted`, a pure function giving everything one call
  of `writeTo` appends, and the lemmas about it. Module `ArgumentsExamples`
  works out concrete outputs for small configurations.
- `arguments_provider.dfy`: the provider's state and its setters as pure
  transitions (`ProviderState`, `Apply`, `ParseMapping`), lemmas about them,
  and the `ArgumentsJsonProvider` class. The class has the provider's fields,
  the setters, `ParseMappingIntoTable` (parseMapping) and `WriteTo`. Each
  method is proved against the pure functions. The `for` loop of `writeTo` is
  the method `WriteArguments`, which `WriteTo` calls after its two early
  returns and before closing the wrapper. Module `ProviderScenarios` drives
  the class through a decode failure and a failed re-decode.

Two facts of the source that the model keeps:

- A failed decode keeps the previous table: lines 152-154 only call addError.
- Every call of either setter rebuilds the table once both inputs are present
  (lines 128, 143, 147), not only the first such call.

## Model

| member | source | states |
|---|---|---|
| `Decimal.NatToString` | src/main/java/net/logstash/logback/composite/loggingevent/ArgumentsJsonProvider.java:91 | the index is rendered as decimal digits with no leading zero; it is one character long exactly when the index is below ten |
| `Decimal.ParseNatToString` | src/main/java/net/logstash/logback/composite/loggingevent/ArgumentsJsonProvider.java:91 | reading the rendered index back as a decimal number gives the index |
| `Decimal.NatToStringInjective` | src/main/java/net/logstash/logback/composite/loggingevent/ArgumentsJsonProvider.java:91 | two indices have the same rendering if and only if they are equal |
| `ArgumentsSpec.DefaultFieldNamesDistinct` | src/main/java/net/logstash/logback/composite/loggingevent/ArgumentsJsonProvider.java:91 | for any prefix, the default names prefix + i and prefix + j are equal if and only if i = j, so default names never collide |
| `ArgumentsSpec.ItemsLength` | src/main/java/net/logstash/logback/composite/loggingevent/ArgumentsJsonProvider.java:73-95 | the loop writes exactly one item per included argument |
| `ArgumentsSpec.AnyIncludedIffCount` | src/main/java/net/logstash/logback/composite/loggingevent/ArgumentsJsonProvider.java:77-90 | some argument is included if and only if the count of included arguments is positive |
| `ArgumentsSpec.CountIncludedStrictlyIncreasing` | src/main/java/net/logstash/logback/composite/loggingevent/ArgumentsJsonProvider.java:73-95 | an included argument at index i is counted before every later index, so its item comes before every later argument's item |
| `ArgumentsSpec.ItemAt` | src/main/java/net/logstash/logback/composite/loggingevent/ArgumentsJsonProvider.java:73-95 | the item of the included argument at index i is the item at position "number of included arguments before i" |
| `ArgumentsSpec.ItemOrigin` | src/main/java/net/logstash/logback/composite/loggingevent/ArgumentsJsonProvider.java:73-95 | every written item is the item of some included argument, the one counted at its position |
| `ArgumentsSpec.ItemsAreLeaves` | src/main/java/net/logstash/logback/composite/loggingevent/ArgumentsJsonProvider.java:77-94 | per-argument output is a field or a structured argument's output, never an object start or end |
| `ArgumentsSpec.ItemKindsFollowFlags` | src/main/java/net/logstash/logback/composite/loggingevent/ArgumentsJsonProvider.java:77-78 | structured output appears only when structured arguments are included, and fields only when non-structured ones are |
| `ArgumentsSpec.NothingIncludedWritesNothing` | src/main/java/net/logstash/logback/composite/loggingevent/ArgumentsJsonProvider.java:60-63 | with both include flags false nothing is written, whatever the arguments; the loop alone would also write nothing |
| `ArgumentsSpec.NoArgumentsWritesNothing` | src/main/java/net/logstash/logback/composite/loggingevent/ArgumentsJsonProvider.java:65-69 | a null or empty argument array writes nothing |
| `ArgumentsSpec.NoIncludedArgumentWritesNothing` | src/main/java/net/logstash/logback/composite/loggingevent/ArgumentsJsonProvider.java:77-90 | when every argument is skipped, nothing is written and the wrapper is not opened |
| `ArgumentsSpec.WrapperPlacement` | src/main/java/net/logstash/logback/composite/loggingevent/ArgumentsJsonProvider.java:71-99 | an object start and an object end are written exactly when a field name is set and some argument is included; the start is only at the front and is the field name, the end is only at the back, so they are balanced, written at most once, and enclose every item |
| `ArgumentsSpec.EmittedAt` | src/main/java/net/logstash/logback/composite/loggingevent/ArgumentsJsonProvider.java:73-95 | the item of each included argument is in the output at its position, after the wrapper start if any |
| `ArgumentsSpec.EmittedOrigin` | src/main/java/net/logstash/logback/composite/loggingevent/ArgumentsJsonProvider.java:73-95 | every output entry between the wrapper start and end is the item of the included argument whose position it is, so nothing else is written |
| `ArgumentsSpec.EmittedItemsAreIncludedArguments` | src/main/java/net/logstash/logback/composite/loggingevent/ArgumentsJsonProvider.java:73-99 | the output has one entry per included argument, plus two when the wrapper is opened |
| `ArgumentsSpec.EmittedIsItems` | src/main/java/net/logstash/logback/composite/loggingevent/ArgumentsJsonProvider.java:71-99 | the output is the items of the included arguments, enclosed in the wrapper start and end exactly when the wrapper is opened |
| `ArgumentsSpec.OrderPreserved` | src/main/java/net/logstash/logback/composite/loggingevent/ArgumentsJsonProvider.java:73-95 | for included arguments i < j, the item of i comes strictly before the item of j in the output |
| `ArgumentsSpec.PlainArgumentField` | src/main/java/net/logstash/logback/composite/loggingevent/ArgumentsJsonProvider.java:86-93 | an included plain argument at index i is written as one field named mapping[prefix + i] when that key is mapped, else prefix + i, with the argument's text as value |
| `ArgumentsSpec.StructuredArgumentPassedThrough` | src/main/java/net/logstash/logback/composite/loggingevent/ArgumentsJsonProvider.java:77-85 | an included structured argument's own output is written at its position |
| `ArgumentsExamples.PlainArgumentsInline` | src/main/java/net/logstash/logback/composite/loggingevent/ArgumentsJsonProvider.java:86-93 | plain arguments "x", "y" with prefix "arg" and no wrapper give fields arg0 = "x", arg1 = "y" in that order |
| `ArgumentsExamples.MappedName` | src/main/java/net/logstash/logback/composite/loggingevent/ArgumentsJsonProvider.java:91-93 | with the mapping arg0 to first, the same arguments give first = "x", arg1 = "y" |
| `ArgumentsExamples.MixedArgumentsWrapped` | src/main/java/net/logstash/logback/composite/loggingevent/ArgumentsJsonProvider.java:71-99 | a structured and a plain argument under the wrapper "args" give one object "args", opened once, holding both in argument order |
| `ArgumentsExamples.DefaultsSkipPlainArguments` | src/main/java/net/logstash/logback/composite/loggingevent/ArgumentsJsonProvider.java:50-51 | with the default flags a plain argument is skipped and a structured one is written inline |
| `ArgumentsProvider.Defaults` | src/main/java/net/logstash/logback/composite/loggingevent/ArgumentsJsonProvider.java:50-55 | a new provider includes structured arguments, excludes plain ones, uses prefix "arg", has no raw mapping, no factory, an empty table and no wrapper |
| `ArgumentsProvider.ParseMappingOutcome` | src/main/java/net/logstash/logback/composite/loggingevent/ArgumentsJsonProvider.java:146-155 | parseMapping does nothing unless both the raw text and the factory are present; then a successful decode replaces the table in full and a failed one keeps it and reports one error; no other field changes |
| `ArgumentsProvider.OtherSettersKeepMapping` | src/main/java/net/logstash/logback/composite/loggingevent/ArgumentsJsonProvider.java:106-124 | the flag, prefix and field-name setters neither change the table nor report an error |
| `ArgumentsProvider.ArrivalOrderIrrelevant` | src/main/java/net/logstash/logback/composite/loggingevent/ArgumentsJsonProvider.java:126-144 | setting the raw text then the factory, or the factory then the raw text, gives the same table and the same errors: the decoded table on success, the old table and one error on failure |
| `ArgumentsProvider.MappingComesFromADecode` | src/main/java/net/logstash/logback/composite/loggingevent/ArgumentsJsonProvider.java:146-155 | after any sequence of setter calls the table is the initial one or a successful decode of the raw text with the factory held after some call |
| `ArgumentsProvider.WriteArguments` | src/main/java/net/logstash/logback/composite/loggingevent/ArgumentsJsonProvider.java:71-95 | the loop opens the wrapper exactly when a field name is set and some argument is included, and appends the wrapper start, if opened, then the items of all included arguments |
| `ArgumentsProvider.ArgumentsJsonProvider.WriteTo` | src/main/java/net/logstash/logback/composite/loggingevent/ArgumentsJsonProvider.java:58-100 | the generator's trace grows by exactly `Emitted` of the provider's configuration and the arguments; the provider is not changed |
| `ArgumentsProvider.ArgumentsJsonProvider.constructor` | src/main/java/net/logstash/logback/composite/loggingevent/ArgumentsJsonProvider.java:50-55 | a new provider is in the default state |
| `ArgumentsProvider.ArgumentsJsonProvider.SetIncludeStructuredArguments` | src/main/java/net/logstash/logback/composite/loggingevent/ArgumentsJsonProvider.java:106-108 | sets the structured flag and nothing else |
| `ArgumentsProvider.ArgumentsJsonProvider.SetIncludeNonStructuredArguments` | src/main/java/net/logstash/logback/composite/loggingevent/ArgumentsJsonProvider.java:114-116 | sets the non-structured flag and nothing else |
| `ArgumentsProvider.ArgumentsJsonProvider.SetNonStructuredArgumentsFieldPrefix` | src/main/java/net/logstash/logback/composite/loggingevent/ArgumentsJsonProvider.java:122-124 | sets the prefix and nothing else |
| `ArgumentsProvider.ArgumentsJsonProvider.SetNonStructuredArgumentsFieldsMapping` | src/main/java/net/logstash/logback/composite/loggingevent/ArgumentsJsonProvider.java:126-129 | stores the raw text, then runs parseMapping |
| `ArgumentsProvider.ArgumentsJsonProvider.SetFieldName` | src/main/java/net/logstash/logback/composite/loggingevent/ArgumentsJsonProvider.java:136-138 | sets the wrapper field name, as setFieldNames does through the base class's setFieldName, and nothing else |
| `ArgumentsProvider.ArgumentsJsonProvider.SetJsonFactory` | src/main/java/net/logstash/logback/composite/loggingevent/ArgumentsJsonProvider.java:141-144 | stores the factory, then runs parseMapping |
| `ArgumentsProvider.ArgumentsJsonProvider.ParseMappingIntoTable` | src/main/java/net/logstash/logback/composite/loggingevent/ArgumentsJsonProvider.java:146-155 | the provider's new state is `ParseMapping` of its old state |

## Left out

- The JSON decoding of the mapping text (Jackson's parser) is not modelled. The factory is a `JsonFactory` value carrying a decoding function that yields a table or fails; a failure stands for the parser's IOException.
- ArgumentsProvider.ParseMapping: two error paths of parseMapping are not modelled, because the decoder yields a table or a reported failure only. First, the mapping text `null` decodes to a null table; line 149 stores it unchecked, and line 92 then throws NullPointerException in every writeTo with an included plain argument. Second, an unchecked exception from the decoder is not an IOException, so it escapes the setters at lines 128 and 143 without addError.
- The mapping table holds string names only. In Java the table is decoded as string-to-object. A JSON null value makes the lookup yield null, so the default name is used. A non-string value would fail the cast at lookup time. Neither case is modelled.
- The generator's bytes, escaping and scope checks are not modelled; the generator is the trace of calls it receives.
- What a structured argument writes of itself is an external type's behaviour; it is one opaque trace event tagged by the argument's id.
- `toString()` of a plain argument: a plain argument carries its text. A null entry in the argument array makes Java throw NullPointerException from `toString()` when plain arguments are included; this is not modelled.
- IOException from the generator is not modelled: every generator call succeeds.
- `addError` is modelled as a counter of reported errors. The message text is not modelled.
- The field-name wiring (`setFieldNames`, LogstashFieldNames and the AbstractFieldJsonProvider base class) is not part of this model. The wrapper name is the `fieldName` field, set by `SetFieldName`, and it starts absent.
- The getters (`isIncludeStructuredArguments` and the others) are not separate members; they read the class's public fields.
- The prefix is never null. In Java a null prefix yields field names like "null0".
- The argument index is a `nat`. Java's `int` index cannot overflow, because an array has fewer than 2^31 elements.
- Thread-safety of the table swap is not modelled: the model is sequential.
