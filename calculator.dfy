/** The calculator resource: its message source union, and Calculator.UnmarshalJSON,
    which copies the scalar fields and then decodes three unions in a fixed
    order (message source, selectors, counters), stopping at the first failure. */
module Calculators {
  import opened Json
  import opened Ordered
  import Selectors
  import Counters

  type Selector = Selectors.Selector
  type Counter = Counters.Counter

  /** The MessagesSource interface: DeviceSource and CalculatorSource. */
  datatype MessagesSource =
    | DeviceSource(source: string)
    | CalculatorSource(source: string, calculatorId: int64)

  /** GetSource: a fixed string per struct; the device one is spelt "deivce". */
  function GetSource(s: MessagesSource): (name: string)
    ensures s.DeviceSource? <==> name == "deivce"
    ensures s.CalculatorSource? <==> name == "calculator"
  {
    match s
    case DeviceSource(_) => "deivce"
    case CalculatorSource(_, _) => "calculator"
  }

  /** A decoded device source stores "device" but reports "deivce". */
  lemma DeviceSourceMisreported(raw: Json)
    requires UnmarshalMessageSource(raw).Ok? && UnmarshalMessageSource(raw).value.DeviceSource?
    ensures GetSource(UnmarshalMessageSource(raw).value) != UnmarshalMessageSource(raw).value.source
  {
  }

  /** The anonymous struct that unmarshalMessageSource decodes into. */
  predicate SourceProbeFits(v: Json)
  {
    StructFits(v) && StrFits(v, "source") && IntFits(v, "calculator_id")
  }

  const SourceProbe := "struct { Source string; CalculatorId int64 }"

  /** unmarshalMessageSource: "device" and "calculator" select their struct;
      the calculator id is read but never copied; anything else is an error. */
  function UnmarshalMessageSource(raw: Json): (r: Result<MessagesSource, DecodeError>)
    ensures !SourceProbeFits(raw) ==> r == Err(TypeMismatch(SourceProbe))
    ensures SourceProbeFits(raw) ==>
      && (Str(raw, "source") == "device" <==> r == Ok(DeviceSource("device")))
      && (Str(raw, "source") == "calculator" <==> r == Ok(CalculatorSource("calculator", 0)))
      && (Str(raw, "source") !in {"device", "calculator"} <==> r == Err(UnknownSource(Str(raw, "source"))))
    ensures r.Ok? ==> r.value.source == Str(raw, "source")
  {
    if !SourceProbeFits(raw) then Err(TypeMismatch(SourceProbe))
    else
      var source := Str(raw, "source");
      if source == "device" then Ok(DeviceSource("device"))
      else if source == "calculator" then Ok(CalculatorSource("calculator", 0))
      else Err(UnknownSource(source))
  }

  /** Whatever calculator_id the input carries, the decoded source holds id 0. */
  lemma CalculatorIdIsDropped(raw: Json)
    requires SourceProbeFits(raw) && Str(raw, "source") == "calculator"
    requires Field(raw, "calculator_id").Some? && Int(raw, "calculator_id") != 0
    ensures UnmarshalMessageSource(raw).Ok?
    ensures UnmarshalMessageSource(raw).value.calculatorId != Int(raw, "calculator_id")
  {
  }

  /** A missing or null source, or an object without a source key, is the
      empty source and is rejected. */
  lemma EmptySourceIsUnknown(raw: Json)
    requires raw == JNull || (raw.JObject? && "source" !in raw.fields && IntFits(raw, "calculator_id"))
    ensures UnmarshalMessageSource(raw) == Err(UnknownSource(""))
  {
  }

  datatype Calculator = Calculator(
    id: int64, name: string, messagesSource: Option<MessagesSource>,
    updatePeriod: int64, updateDelay: int64, updateOnchange: bool,
    intervalsTtl: int64, intervalsRotate: int64,
    selectors: seq<Selector>, counters: seq<Counter>,
    validateInterval: string, validateMessage: string, timezone: string,
    metadata: map<string, string>)

  // ----- Calculator.UnmarshalJSON -----

  /** The raw struct: the three unions are kept as raw messages. */
  predicate CalculatorRawFits(v: Json)
  {
    && StructFits(v) && IntFits(v, "id") && StrFits(v, "name")
    && IntFits(v, "update_period") && IntFits(v, "update_delay") && FlagFits(v, "update_onchange")
    && IntFits(v, "intervals_ttl") && IntFits(v, "intervals_rotate")
    && RawListFits(Field(v, "selectors")) && RawListFits(Field(v, "counters"))
    && StrFits(v, "validate_interval") && StrFits(v, "validate_message") && StrFits(v, "timezone")
    && StringMapFits(Field(v, "metadata"))
  }

  /** The ten scalar assignments; the unions and the metadata are left as they were. */
  function CopyCalculatorScalars(c: Calculator, v: Json): (r: Calculator)
    ensures r.messagesSource == c.messagesSource && r.selectors == c.selectors
    ensures r.counters == c.counters && r.metadata == c.metadata
  {
    c.(id := Int(v, "id"), name := Str(v, "name"),
       updatePeriod := Int(v, "update_period"), updateDelay := Int(v, "update_delay"),
       updateOnchange := Flag(v, "update_onchange"),
       intervalsTtl := Int(v, "intervals_ttl"), intervalsRotate := Int(v, "intervals_rotate"),
       validateInterval := Str(v, "validate_interval"), validateMessage := Str(v, "validate_message"),
       timezone := Str(v, "timezone"))
  }

  function SourceOf(data: Json): Result<MessagesSource, DecodeError>
  {
    var raw := Field(data, "messages_source");
    if raw.None? then Err(EndOfInput) else UnmarshalMessageSource(raw.value)
  }

  function SelectorsOf(data: Json): Decoded<seq<Selector>>
  {
    DecodeEach(RawListFrom(Field(data, "selectors")), Selectors.SelectorResult)
  }

  function CountersOf(data: Json): Decoded<seq<Counter>>
  {
    DecodeEach(RawListFrom(Field(data, "counters")), Counters.UnmarshalCounter)
  }

  /** The union stage of Calculator.UnmarshalJSON on a receiver `c` whose
      scalars are already copied, given the outcome of each union decode. */
  function DecodeUnions(c: Calculator, source: Result<MessagesSource, DecodeError>, selectors: Decoded<seq<Selector>>,
                        counters: Decoded<seq<Counter>>, metadata: map<string, string>): Decoded<Calculator>
  {
    match source
    case Err(e) => Decoded(c, Some(e))
    case Ok(s) =>
      var c := c.(messagesSource := Some(s));
      if selectors.err.Some? then Decoded(c, selectors.err)
      else
        var c := c.(selectors := selectors.value);
        if counters.err.Some? then Decoded(c, counters.err)
        else Decoded(c.(counters := counters.value, metadata := metadata), None)
  }

  /** What the receiver holds after Calculator.UnmarshalJSON, and the error. */
  function CalculatorDecoded(prior: Calculator, data: Json): Decoded<Calculator>
  {
    if !CalculatorRawFits(data) then Decoded(prior, Some(TypeMismatch("Calculator raw")))
    else DecodeUnions(CopyCalculatorScalars(prior, data), SourceOf(data), SelectorsOf(data), CountersOf(data),
                      StringMapFrom(Field(data, "metadata")))
  }

  /** The receiver's statements in source order. */
  method UnmarshalCalculator(prior: Calculator, data: Json) returns (c: Calculator, err: Option<DecodeError>)
    ensures Decoded(c, err) == CalculatorDecoded(prior, data)
  {
    c := prior;
    if !CalculatorRawFits(data) {
      return c, Some(TypeMismatch("Calculator raw"));
    }
    c := CopyCalculatorScalars(c, data);
    var rawSource := Field(data, "messages_source");
    if rawSource.None? {
      return c, Some(EndOfInput);
    }
    var source := UnmarshalMessageSource(rawSource.value);
    if source.Err? {
      return c, Some(source.error);
    }
    c := c.(messagesSource := Some(source.value));
    var selectors;
    selectors, err := Selectors.UnmarshalSelectors(RawListFrom(Field(data, "selectors")));
    if err.Some? {
      return;
    }
    c := c.(selectors := selectors);
    var counters;
    counters, err := Counters.UnmarshalCounters(RawListFrom(Field(data, "counters")));
    if err.Some? {
      return;
    }
    c := c.(counters := counters);
    c := c.(metadata := StringMapFrom(Field(data, "metadata")));
  }

  /** The ten scalar fields of `c` are those of the raw struct `v`. */
  predicate ScalarsFrom(c: Calculator, v: Json)
  {
    && c.id == Int(v, "id") && c.name == Str(v, "name")
    && c.updatePeriod == Int(v, "update_period") && c.updateDelay == Int(v, "update_delay")
    && c.updateOnchange == Flag(v, "update_onchange")
    && c.intervalsTtl == Int(v, "intervals_ttl") && c.intervalsRotate == Int(v, "intervals_rotate")
    && c.validateInterval == Str(v, "validate_interval") && c.validateMessage == Str(v, "validate_message")
    && c.timezone == Str(v, "timezone")
  }

  /** The union stage changes only the unions and the metadata; it stops at
      the first union that fails, and whatever it did not reach keeps its value. */
  lemma UnionStageInOrder(c: Calculator, source: Result<MessagesSource, DecodeError>, selectors: Decoded<seq<Selector>>,
                          counters: Decoded<seq<Counter>>, metadata: map<string, string>)
    ensures var r := DecodeUnions(c, source, selectors, counters, metadata);
      && r.value == c.(messagesSource := r.value.messagesSource, selectors := r.value.selectors,
                       counters := r.value.counters, metadata := r.value.metadata)
      && (source.Err? ==> r == Decoded(c, Some(source.error)))
      && (source.Ok? ==> r.value.messagesSource == Some(source.value))
      && (source.Ok? && selectors.err.Some? ==>
            r.err == selectors.err && r.value.selectors == c.selectors && r.value.counters == c.counters)
      && (source.Ok? && selectors.err.None? ==> r.value.selectors == selectors.value)
      && (r.err.None? <==> source.Ok? && selectors.err.None? && counters.err.None?)
      && (r.err.Some? ==> r.value.counters == c.counters && r.value.metadata == c.metadata)
      && (r.err.None? ==> r.value.counters == counters.value && r.value.metadata == metadata)
  {
  }

  /** The scalar fields are copied as soon as the raw struct decodes, before
      any union is looked at, so they are set whichever union fails. */
  lemma ScalarsCopiedFirst(prior: Calculator, data: Json)
    requires CalculatorRawFits(data)
    ensures ScalarsFrom(CalculatorDecoded(prior, data).value, data)
  {
    var c := CopyCalculatorScalars(prior, data);
    assert ScalarsFrom(c, data);
    UnionStageInOrder(c, SourceOf(data), SelectorsOf(data), CountersOf(data), StringMapFrom(Field(data, "metadata")));
  }

  /** The three unions are decoded in order, each only after the previous one
      succeeded; whatever was not reached keeps its prior value, and the
      metadata is assigned only when everything succeeded. */
  lemma UnionsInOrder(prior: Calculator, data: Json)
    requires CalculatorRawFits(data)
    ensures var r := CalculatorDecoded(prior, data);
      && (SourceOf(data).Err? ==>
            r.err == Some(SourceOf(data).error) && r.value.messagesSource == prior.messagesSource
            && r.value.selectors == prior.selectors && r.value.counters == prior.counters)
      && (SourceOf(data).Ok? ==> r.value.messagesSource == Some(SourceOf(data).value))
      && (SourceOf(data).Ok? && SelectorsOf(data).err.Some? ==>
            r.err == SelectorsOf(data).err && r.value.selectors == prior.selectors && r.value.counters == prior.counters)
      && (SourceOf(data).Ok? && SelectorsOf(data).err.None? ==> r.value.selectors == SelectorsOf(data).value)
      && (r.err.Some? ==> r.value.metadata == prior.metadata)
  {
    var c := CopyCalculatorScalars(prior, data);
    UnionStageInOrder(c, SourceOf(data), SelectorsOf(data), CountersOf(data), StringMapFrom(Field(data, "metadata")));
  }

  /** The decode succeeds exactly when the raw struct fits, the source is
      known, and every selector and every counter decodes; the lists then
      hold one element per input element, in order. */
  lemma CalculatorSucceedsIff(prior: Calculator, data: Json)
    ensures var r := CalculatorDecoded(prior, data);
      var sels := RawListFrom(Field(data, "selectors"));
      var cnts := RawListFrom(Field(data, "counters"));
      r.err.None? <==>
        && CalculatorRawFits(data) && SourceOf(data).Ok?
        && (forall i :: 0 <= i < |sels| ==> Selectors.SelectorResult(sels[i]).Ok?)
        && (forall i :: 0 <= i < |cnts| ==> Counters.UnmarshalCounter(cnts[i]).Ok?)
    ensures var r := CalculatorDecoded(prior, data);
      var cnts := RawListFrom(Field(data, "counters"));
      r.err.None? ==>
        && |r.value.counters| == |cnts|
        && (forall i :: 0 <= i < |cnts| ==> Counters.UnmarshalCounter(cnts[i]) == Ok(r.value.counters[i]))
        && r.value.metadata == StringMapFrom(Field(data, "metadata"))
  {
    if CalculatorRawFits(data) {
      var c := CopyCalculatorScalars(prior, data);
      UnionStageInOrder(c, SourceOf(data), SelectorsOf(data), CountersOf(data), StringMapFrom(Field(data, "metadata")));
    }
    DecodeEachSucceedsIff(RawListFrom(Field(data, "selectors")), Selectors.SelectorResult);
    DecodeEachSucceedsIff(RawListFrom(Field(data, "counters")), Counters.UnmarshalCounter);
  }

  // ----- the calculator options -----

  datatype CalculatorOption =
    | WithDeviceMessageSource
    | WithCalculatorMessageSource(calculatorId: int64)
    | WithSelector(selector: Selector)
    | WithCounter(counter: Counter)

  /** Each option writes only its own field; the list options append. */
  function ApplyCalculatorOption(c: Calculator, o: CalculatorOption): (r: Calculator)
    ensures r.messagesSource == match o
      case WithDeviceMessageSource => Some(DeviceSource("device"))
      case WithCalculatorMessageSource(id) => Some(CalculatorSource("calculator", id))
      case _ => c.messagesSource
    ensures r.selectors == c.selectors + (if o.WithSelector? then [o.selector] else [])
    ensures r.counters == c.counters + (if o.WithCounter? then [o.counter] else [])
    ensures r == c.(messagesSource := r.messagesSource, selectors := r.selectors, counters := r.counters)
  {
    match o
    case WithDeviceMessageSource => c.(messagesSource := Some(DeviceSource("device")))
    case WithCalculatorMessageSource(id) => c.(messagesSource := Some(CalculatorSource("calculator", id)))
    case WithSelector(s) => c.(selectors := c.selectors + [s])
    case WithCounter(k) => c.(counters := c.counters + [k])
  }

  /** The selectors that a list of options adds, in option order. */
  function AddedSelectors(opts: seq<CalculatorOption>): seq<Selector>
  {
    if opts == [] then []
    else (if opts[0].WithSelector? then [opts[0].selector] else []) + AddedSelectors(opts[1..])
  }

  /** The counters that a list of options adds, in option order. */
  function AddedCounters(opts: seq<CalculatorOption>): seq<Counter>
  {
    if opts == [] then []
    else (if opts[0].WithCounter? then [opts[0].counter] else []) + AddedCounters(opts[1..])
  }

  /** After any list of options the earlier selectors and counters are still
      there, in their order, followed by those the options add, in option order. */
  lemma {:induction false} OptionsAppendInOrder(c: Calculator, opts: seq<CalculatorOption>)
    decreases |opts|
    ensures ApplyAll(c, opts, ApplyCalculatorOption).selectors == c.selectors + AddedSelectors(opts)
    ensures ApplyAll(c, opts, ApplyCalculatorOption).counters == c.counters + AddedCounters(opts)
    ensures ApplyAll(c, opts, ApplyCalculatorOption).name == c.name
    ensures ApplyAll(c, opts, ApplyCalculatorOption).metadata == c.metadata
  {
    if opts != [] {
      var next := ApplyCalculatorOption(c, opts[0]);
      OptionsAppendInOrder(next, opts[1..]);
      var s0: seq<Selector> := if opts[0].WithSelector? then [opts[0].selector] else [];
      var k0: seq<Counter> := if opts[0].WithCounter? then [opts[0].counter] else [];
      assert c.selectors + s0 + AddedSelectors(opts[1..]) == c.selectors + (s0 + AddedSelectors(opts[1..]));
      assert c.counters + k0 + AddedCounters(opts[1..]) == c.counters + (k0 + AddedCounters(opts[1..]));
    }
  }
}
