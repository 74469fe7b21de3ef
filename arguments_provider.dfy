/**
 * The arguments provider: its configuration, the setters that change it, the
 * rebuild of the name-mapping table, and writeTo, which walks the event's
 * argument array and writes each included argument into the generator.
 */
module ArgumentsProvider {
  import opened Wrappers
  import opened Decimal
  import opened JsonGenerator
  import opened ArgumentsSpec

  /**
   * The JSON factory, reduced to what the provider uses of it: decoding the
   * raw mapping text into a table, or failing (the parser's IOException).
   */
  datatype JsonFactory = JsonFactory(decode: string -> Option<map<string, string>>)

  /** The provider's fields; `errors` counts the errors reported through addError. */
  datatype ProviderState = ProviderState(
    includeStructured: bool,
    includeNonStructured: bool,
    prefix: string,
    rawMapping: Option<string>,
    factory: Option<JsonFactory>,
    mapping: map<string, string>,
    fieldName: Option<string>,
    errors: nat)

  /** One setter call. */
  datatype Setting =
    | IncludeStructured(structured: bool)
    | IncludeNonStructured(nonStructured: bool)
    | FieldPrefix(prefix: string)
    | FieldsMapping(raw: Option<string>)
    | Factory(factory: Option<JsonFactory>)
    | WrapperFieldName(name: Option<string>)

  /** A freshly constructed provider. */
  function Initial(): ProviderState {
    ProviderState(true, false, "arg", None, None, map[], None, 0)
  }

  /** What writeTo reads of the provider. */
  function ConfigOf(s: ProviderState): Config {
    Config(s.includeStructured, s.includeNonStructured, s.prefix, s.mapping, s.fieldName)
  }

  /**
   * parseMapping: with both the raw text and the factory present, a successful
   * decode replaces the table and a failed one reports an error and keeps it;
   * otherwise nothing happens.
   */
  function ParseMapping(s: ProviderState): ProviderState {
    if s.rawMapping.Some? && s.factory.Some? then
      match s.factory.value.decode(s.rawMapping.value)
      case Some(m) => s.(mapping := m)
      case None => s.(errors := s.errors + 1)
    else s
  }

  /** The state after one setter call. */
  function Apply(s: ProviderState, setting: Setting): ProviderState {
    match setting
    case IncludeStructured(b) => s.(includeStructured := b)
    case IncludeNonStructured(b) => s.(includeNonStructured := b)
    case FieldPrefix(p) => s.(prefix := p)
    case FieldsMapping(raw) => ParseMapping(s.(rawMapping := raw))
    case Factory(f) => ParseMapping(s.(factory := f))
    case WrapperFieldName(name) => s.(fieldName := name)
  }

  /** The state after a sequence of setter calls, first to last. */
  function ApplyAll(s: ProviderState, settings: seq<Setting>): ProviderState
    decreases |settings|
  {
    if settings == [] then s
    else Apply(ApplyAll(s, settings[..|settings| - 1]), settings[|settings| - 1])
  }

  // ---------------------------------------------------------------------
  // The configuration state machine

  /** The defaults: structured arguments in, plain ones out, prefix "arg", no mapping, no wrapper. */
  lemma Defaults()
    ensures ConfigOf(Initial()) == Config(true, false, "arg", map[], None)
    ensures Initial().rawMapping.None? && Initial().factory.None? && Initial().errors == 0
  {
  }

  /**
   * The table is rebuilt only when both inputs are present; a successful
   * decode replaces it in full, a failed one leaves it as it was and reports
   * one error. Nothing else changes.
   */
  lemma ParseMappingOutcome(s: ProviderState)
    ensures var t := ParseMapping(s);
      && t.(mapping := s.mapping, errors := s.errors) == s
      && (s.rawMapping.None? || s.factory.None? ==> t == s)
      && (s.rawMapping.Some? && s.factory.Some? ==>
            match s.factory.value.decode(s.rawMapping.value)
            case Some(m) => t.mapping == m && t.errors == s.errors
            case None => t.mapping == s.mapping && t.errors == s.errors + 1)
  {
  }

  /** Only the two setters that feed parseMapping can change the table or report an error. */
  lemma OtherSettersKeepMapping(s: ProviderState, setting: Setting)
    requires !setting.FieldsMapping? && !setting.Factory?
    ensures Apply(s, setting).mapping == s.mapping && Apply(s, setting).errors == s.errors
  {
  }

  /** The raw text and the factory may arrive in either order: the table comes out the same. */
  lemma ArrivalOrderIrrelevant(s: ProviderState, raw: string, f: JsonFactory)
    requires s.rawMapping.None? && s.factory.None?
    ensures var t1 := ApplyAll(s, [FieldsMapping(Some(raw)), Factory(Some(f))]);
            var t2 := ApplyAll(s, [Factory(Some(f)), FieldsMapping(Some(raw))]);
            t1.mapping == t2.mapping && t1.errors == t2.errors
            && (f.decode(raw).Some? ==> t1.mapping == f.decode(raw).value)
            && (f.decode(raw).None? ==> t1.mapping == s.mapping && t1.errors == s.errors + 1)
  {
    var x, y := FieldsMapping(Some(raw)), Factory(Some(f));
    assert [x, y][..1] == [x] && [y, x][..1] == [y];
    assert [x][..0] == [] && [y][..0] == [];
    assert ApplyAll(s, [x]) == Apply(s, x);
    assert ApplyAll(s, [y]) == Apply(s, y);
  }

  /**
   * After any sequence of setter calls the table is either the one the
   * provider started with or the successful decode of the raw text with the
   * factory that the provider held after some call: a failed decode never
   * clears or corrupts it.
   */
  lemma {:induction false} MappingComesFromADecode(s: ProviderState, settings: seq<Setting>)
    ensures var t := ApplyAll(s, settings);
      t.mapping == s.mapping
      || exists i :: 0 < i <= |settings| &&
           var u := ApplyAll(s, settings[..i]);
           u.rawMapping.Some? && u.factory.Some? && u.factory.value.decode(u.rawMapping.value) == Some(t.mapping)
    decreases |settings|
  {
    if settings != [] {
      var n := |settings|;
      var before := ApplyAll(s, settings[..n - 1]);
      var t := ApplyAll(s, settings);
      assert settings[..n] == settings;
      if t.mapping != before.mapping {
        assert t.rawMapping.Some? && t.factory.Some? && t.factory.value.decode(t.rawMapping.value) == Some(t.mapping);
      } else {
        MappingComesFromADecode(s, settings[..n - 1]);
        if before.mapping != s.mapping {
          var i :| 0 < i <= n - 1 &&
            var u := ApplyAll(s, settings[..n - 1][..i]);
            u.rawMapping.Some? && u.factory.Some? && u.factory.value.decode(u.rawMapping.value) == Some(before.mapping);
          assert settings[..n - 1][..i] == settings[..i];
        }
      }
    }
  }

  // ---------------------------------------------------------------------
  // The loop of writeTo

  /**
   * The loop of writeTo over the argument array: opens the wrapper just before
   * the first included argument, then writes the item of every included
   * argument. Reports whether it opened the wrapper, which the caller closes.
   */
  method WriteArguments(c: Config, generator: Generator, a: seq<Argument>) returns (hasWrittenFieldName: bool)
    modifies generator
    ensures hasWrittenFieldName == (c.fieldName.Some? && CountIncluded(c, a, |a|) > 0)
    ensures generator.trace == old(generator.trace)
              + (if hasWrittenFieldName then [StartObject(c.fieldName.value)] else [])
              + Items(c, a, |a|)
  {
    // What precedes the items: the caller's output, then the wrapper start once opened.
    ghost var head := old(generator.trace);
    hasWrittenFieldName := false;
    var argIndex := 0;
    while argIndex < |a|
      invariant 0 <= argIndex <= |a|
      invariant hasWrittenFieldName == (c.fieldName.Some? && CountIncluded(c, a, argIndex) > 0)
      invariant head == old(generator.trace) + if hasWrittenFieldName then [StartObject(c.fieldName.value)] else []
      invariant generator.trace == head + Items(c, a, argIndex)
    {
      var arg := a[argIndex];
      ghost var items, item := Items(c, a, argIndex), ItemFor(c, arg, argIndex);
      // Before the first included argument no item has been written.
      ItemsLength(c, a, argIndex);
      if arg.StructuredArgument? {
        if c.includeStructured {
          if !hasWrittenFieldName && c.fieldName.Some? {
            generator.WriteObjectFieldStart(c.fieldName.value);
            hasWrittenFieldName := true;
            head := generator.trace;
          }
          generator.WriteStructured(arg.id);
        }
      } else if c.includeNonStructured {
        if !hasWrittenFieldName && c.fieldName.Some? {
          generator.WriteObjectFieldStart(c.fieldName.value);
          hasWrittenFieldName := true;
          head := generator.trace;
        }
        var name := c.prefix + NatToString(argIndex);
        var mappedName := if name in c.mapping then Some(c.mapping[name]) else None;
        generator.WriteObjectField(if mappedName.Some? then mappedName.value else name, arg.text);
      }
      assert generator.trace == head + (items + item);
      argIndex := argIndex + 1;
    }
  }

  // ---------------------------------------------------------------------
  // The provider object

  class ArgumentsJsonProvider {
    var includeStructuredArguments: bool
    var includeNonStructuredArguments: bool
    var nonStructuredArgumentsFieldPrefix: string
    var nonStructuredArgumentsFieldsMapping: Option<string>
    var jsonFactory: Option<JsonFactory>
    var nonStructuredArgumentsFieldsMappingMap: map<string, string>
    var fieldName: Option<string>      // the wrapper field name, kept by the base class
    var errorsReported: nat           // how many times addError was called

    /** The fields as one value. */
    function State(): ProviderState
      reads this
    {
      ProviderState(includeStructuredArguments, includeNonStructuredArguments,
                    nonStructuredArgumentsFieldPrefix, nonStructuredArgumentsFieldsMapping,
                    jsonFactory, nonStructuredArgumentsFieldsMappingMap, fieldName, errorsReported)
    }

    constructor ()
      ensures State() == Initial()
    {
      includeStructuredArguments := true;
      includeNonStructuredArguments := false;
      nonStructuredArgumentsFieldPrefix := "arg";
      nonStructuredArgumentsFieldsMapping := None;
      jsonFactory := None;
      nonStructuredArgumentsFieldsMappingMap := map[];
      fieldName := None;
      errorsReported := 0;
    }

    method SetIncludeStructuredArguments(value: bool)
      modifies this
      ensures State() == Apply(old(State()), IncludeStructured(value))
    {
      includeStructuredArguments := value;
    }

    method SetIncludeNonStructuredArguments(value: bool)
      modifies this
      ensures State() == Apply(old(State()), IncludeNonStructured(value))
    {
      includeNonStructuredArguments := value;
    }

    method SetNonStructuredArgumentsFieldPrefix(prefix: string)
      modifies this
      ensures State() == Apply(old(State()), FieldPrefix(prefix))
    {
      nonStructuredArgumentsFieldPrefix := prefix;
    }

    method SetNonStructuredArgumentsFieldsMapping(raw: Option<string>)
      modifies this
      ensures State() == Apply(old(State()), FieldsMapping(raw))
    {
      nonStructuredArgumentsFieldsMapping := raw;
      ParseMappingIntoTable();
    }

    method SetJsonFactory(factory: Option<JsonFactory>)
      modifies this
      ensures State() == Apply(old(State()), Factory(factory))
    {
      jsonFactory := factory;
      ParseMappingIntoTable();
    }

    /** Stands for the base class's setFieldName, which setFieldNames calls. */
    method SetFieldName(name: Option<string>)
      modifies this
      ensures State() == Apply(old(State()), WrapperFieldName(name))
    {
      fieldName := name;
    }

    /** parseMapping. */
    method ParseMappingIntoTable()
      modifies this
      ensures State() == ParseMapping(old(State()))
    {
      if nonStructuredArgumentsFieldsMapping.Some? && jsonFactory.Some? {
        var decoded := jsonFactory.value.decode(nonStructuredArgumentsFieldsMapping.value);
        if decoded.Some? {
          nonStructuredArgumentsFieldsMappingMap := decoded.value;
        } else {
          errorsReported := errorsReported + 1;
        }
      }
    }

    /**
     * writeTo: appends to the generator exactly what the configuration and the
     * arguments call for (a null array is None) and changes nothing else.
     */
    method WriteTo(generator: Generator, args: Option<seq<Argument>>)
      modifies generator
      ensures generator.trace == old(generator.trace) + Emitted(ConfigOf(State()), args)
    {
      if !includeStructuredArguments && !includeNonStructuredArguments {
        return;
      }
      if args.None? || |args.value| == 0 {
        return;
      }
      var a, c := args.value, ConfigOf(State());
      var hasWrittenFieldName := WriteArguments(c, generator, a);
      AnyIncludedIffCount(c, a, |a|);
      ghost var items := Items(c, a, |a|);
      if hasWrittenFieldName {
        generator.WriteEndObject();
        assert generator.trace == old(generator.trace) + ([StartObject(c.fieldName.value)] + items + [EndObject]);
      } else {
        assert generator.trace == old(generator.trace) + items;
      }
      assert c == ConfigOf(State());
    }
  }
}

/** Configuration scenarios checked against the provider object's contracts. */
module ProviderScenarios {
  import opened Wrappers
  import opened JsonGenerator
  import opened ArgumentsSpec
  import opened ArgumentsProvider
  import ArgumentsExamples

  /**
   * A mapping text the factory cannot decode: one error is reported, the table
   * stays empty, and events are still written with the default names, the same
   * way every time.
   */
  method DecodeFailure() {
    var provider := new ArgumentsJsonProvider();
    provider.SetIncludeNonStructuredArguments(true);
    provider.SetNonStructuredArgumentsFieldsMapping(Some("{invalid"));
    provider.SetJsonFactory(Some(JsonFactory(raw => None)));
    assert provider.nonStructuredArgumentsFieldsMappingMap == map[] && provider.errorsReported == 1;

    var args := Some([PlainArgument("x"), PlainArgument("y")]);
    var first := new Generator();
    var second := new Generator();
    provider.WriteTo(first, args);
    provider.WriteTo(second, args);
    assert ConfigOf(provider.State()) == Config(true, true, "arg", map[], None);
    ArgumentsExamples.PlainArgumentsInline();
    assert first.trace == second.trace == [Field("arg0", "x"), Field("arg1", "y")];
  }

  /** A later mapping text that fails to decode leaves the last good table in place. */
  method FailedRedecodeKeepsTable() {
    var provider := new ArgumentsJsonProvider();
    var table := map["arg0" := "first"];
    provider.SetJsonFactory(Some(JsonFactory(raw => if raw == "{\"arg0\":\"first\"}" then Some(table) else None)));
    assert provider.nonStructuredArgumentsFieldsMappingMap == map[] && provider.errorsReported == 0;
    provider.SetNonStructuredArgumentsFieldsMapping(Some("{\"arg0\":\"first\"}"));
    assert provider.nonStructuredArgumentsFieldsMappingMap == table;
    provider.SetNonStructuredArgumentsFieldsMapping(Some("{invalid"));
    assert provider.nonStructuredArgumentsFieldsMappingMap == table && provider.errorsReported == 1;
  }
}
