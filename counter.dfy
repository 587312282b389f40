/** Calculator counters: thirteen counter kinds selected by the `type` tag, the
    `specified` kind split three ways by the JSON kind of its `value`, the
    constructors with their functional options, and the decoders. */
module Counters {
  import opened Json
  import opened Ordered

  // ----- the counter structs (`tag` is each struct's `Type` field) -----

  datatype CounterExpression = CounterExpression(name: string, tag: string, expression: string, methodName: string, validateMessage: string)

  datatype CounterDatasetField = CounterDatasetField(name: string, value: string)

  datatype CounterDataset = CounterDataset(name: string, tag: string, fields: seq<CounterDatasetField>, allowUnknown: bool, validateMessage: string)

  datatype CounterRoute = CounterRoute(name: string, tag: string, validateMessage: string)

  datatype CounterDatetime = CounterDatetime(name: string, tag: string, format: string, interval: string, validateMessage: string)

  datatype CounterParameter = CounterParameter(name: string, tag: string, parameter: string, methodName: string, validateMessage: string)

  datatype CounterMessageExtremum = CounterMessageExtremum(tag: string, expression: string)

  datatype CounterMessage = CounterMessage(name: string, tag: string, methodName: string, fields: seq<string>, extremum: CounterMessageExtremum, validateMessage: string)

  datatype CounterInterval = CounterInterval(name: string, tag: string, expression: string)

  datatype CounterActive = CounterActive(name: string, tag: string)

  datatype CounterGeofence = CounterGeofence(name: string, tag: string)

  datatype CounterVariable = CounterVariable(name: string, tag: string, expression: string, validateMessage: string)

  datatype CounterSpecifiedString = CounterSpecifiedString(name: string, tag: string, value: string)

  datatype CounterSpecifiedNumber = CounterSpecifiedNumber(name: string, tag: string, value: Number)

  datatype CounterSpecifiedBoolean = CounterSpecifiedBoolean(name: string, tag: string, value: bool)

  datatype CounterCalculator = CounterCalculator(
    name: string, calculatorId: int64, tag: string, allowFinishAfter: bool, allowStartBefore: bool,
    fields: seq<string>, methodName: string, validateInterval: string)

  datatype CounterAccumulator = CounterAccumulator(name: string, tag: string, counter: string, resetExpression: string, resetInterval: string)

  /** The Counter interface: which struct a decoded counter is. */
  datatype Counter =
    | Expression(CounterExpression)
    | Dataset(CounterDataset)
    | Route(CounterRoute)
    | Datetime(CounterDatetime)
    | Parameter(CounterParameter)
    | Message(CounterMessage)
    | Interval(CounterInterval)
    | Active(CounterActive)
    | Geofence(CounterGeofence)
    | Variable(CounterVariable)
    | SpecifiedString(CounterSpecifiedString)
    | SpecifiedNumber(CounterSpecifiedNumber)
    | SpecifiedBoolean(CounterSpecifiedBoolean)
    | Calculator(CounterCalculator)
    | Accumulator(CounterAccumulator)

  /** The tag that selects each struct when decoding (and that its constructor stores). */
  function VariantTag(c: Counter): string
  {
    match c
    case Expression(_) => "expression"
    case Dataset(_) => "dataset"
    case Route(_) => "route"
    case Datetime(_) => "datetime"
    case Parameter(_) => "parameter"
    case Message(_) => "message"
    case Interval(_) => "interval"
    case Active(_) => "active"
    case Geofence(_) => "geofence"
    case Variable(_) => "variable"
    case SpecifiedString(_) => "specified"
    case SpecifiedNumber(_) => "specified"
    case SpecifiedBoolean(_) => "specified"
    case Calculator(_) => "calculator"
    case Accumulator(_) => "accumulator"
  }

  /** The Type field the counter actually holds. */
  function StoredType(c: Counter): string
  {
    match c
    case Expression(x) => x.tag
    case Dataset(x) => x.tag
    case Route(x) => x.tag
    case Datetime(x) => x.tag
    case Parameter(x) => x.tag
    case Message(x) => x.tag
    case Interval(x) => x.tag
    case Active(x) => x.tag
    case Geofence(x) => x.tag
    case Variable(x) => x.tag
    case SpecifiedString(x) => x.tag
    case SpecifiedNumber(x) => x.tag
    case SpecifiedBoolean(x) => x.tag
    case Calculator(x) => x.tag
    case Accumulator(x) => x.tag
  }

  function CounterName(c: Counter): string
  {
    match c
    case Expression(x) => x.name
    case Dataset(x) => x.name
    case Route(x) => x.name
    case Datetime(x) => x.name
    case Parameter(x) => x.name
    case Message(x) => x.name
    case Interval(x) => x.name
    case Active(x) => x.name
    case Geofence(x) => x.name
    case Variable(x) => x.name
    case SpecifiedString(x) => x.name
    case SpecifiedNumber(x) => x.name
    case SpecifiedBoolean(x) => x.name
    case Calculator(x) => x.name
    case Accumulator(x) => x.name
  }

  const CounterTags: set<string> := {
    "expression", "dataset", "route", "datetime", "parameter", "message", "interval",
    "active", "geofence", "variable", "specified", "calculator", "accumulator"
  }

  // ----- per-struct decoding (json.Unmarshal into a fresh struct) -----

  predicate ExpressionFits(v: Json)
  {
    StructFits(v) && StrFits(v, "name") && StrFits(v, "type") && StrFits(v, "expression") && StrFits(v, "method") && StrFits(v, "validate_message")
  }

  function ExpressionFrom(v: Json): CounterExpression
  {
    CounterExpression(Str(v, "name"), Str(v, "type"), Str(v, "expression"), Str(v, "method"), Str(v, "validate_message"))
  }

  predicate DatasetFieldFits(v: Json)
  {
    StructFits(v) && StrFits(v, "name") && StrFits(v, "value")
  }

  function DatasetFieldFrom(v: Json): CounterDatasetField
  {
    CounterDatasetField(Str(v, "name"), Str(v, "value"))
  }

  predicate DatasetFits(v: Json)
  {
    && StructFits(v) && StrFits(v, "name") && StrFits(v, "type")
    && ListFits(Field(v, "fields"), DatasetFieldFits)
    && FlagFits(v, "allow_unknown") && StrFits(v, "validate_message")
  }

  function DatasetFrom(v: Json): CounterDataset
  {
    CounterDataset(Str(v, "name"), Str(v, "type"), ListFrom(Field(v, "fields"), DatasetFieldFrom), Flag(v, "allow_unknown"), Str(v, "validate_message"))
  }

  predicate RouteFits(v: Json)
  {
    StructFits(v) && StrFits(v, "name") && StrFits(v, "type") && StrFits(v, "validate_message")
  }

  function RouteFrom(v: Json): CounterRoute
  {
    CounterRoute(Str(v, "name"), Str(v, "type"), Str(v, "validate_message"))
  }

  predicate DatetimeFits(v: Json)
  {
    StructFits(v) && StrFits(v, "name") && StrFits(v, "type") && StrFits(v, "format") && StrFits(v, "interval") && StrFits(v, "validate_message")
  }

  function DatetimeFrom(v: Json): CounterDatetime
  {
    CounterDatetime(Str(v, "name"), Str(v, "type"), Str(v, "format"), Str(v, "interval"), Str(v, "validate_message"))
  }

  predicate ParameterFits(v: Json)
  {
    StructFits(v) && StrFits(v, "name") && StrFits(v, "type") && StrFits(v, "parameter") && StrFits(v, "method") && StrFits(v, "validate_message")
  }

  function ParameterFrom(v: Json): CounterParameter
  {
    CounterParameter(Str(v, "name"), Str(v, "type"), Str(v, "parameter"), Str(v, "method"), Str(v, "validate_message"))
  }

  predicate ExtremumFits(v: Json)
  {
    StructFits(v) && StrFits(v, "type") && StrFits(v, "Expression")
  }

  function ExtremumFrom(v: Json): CounterMessageExtremum
  {
    CounterMessageExtremum(Str(v, "type"), Str(v, "Expression"))
  }

  const ZeroExtremum := CounterMessageExtremum("", "")

  predicate MessageFits(v: Json)
  {
    && StructFits(v) && StrFits(v, "name") && StrFits(v, "type") && StrFits(v, "method")
    && StrsFit(v, "fields") && NestedFits(Field(v, "extremum"), ExtremumFits) && StrFits(v, "validate_message")
  }

  function MessageFrom(v: Json): CounterMessage
  {
    CounterMessage(Str(v, "name"), Str(v, "type"), Str(v, "method"), Strs(v, "fields"),
                   NestedFrom(Field(v, "extremum"), ExtremumFrom, ZeroExtremum), Str(v, "validate_message"))
  }

  predicate IntervalFits(v: Json)
  {
    StructFits(v) && StrFits(v, "name") && StrFits(v, "type") && StrFits(v, "expression")
  }

  function IntervalFrom(v: Json): CounterInterval
  {
    CounterInterval(Str(v, "name"), Str(v, "type"), Str(v, "expression"))
  }

  /** CounterActive and CounterGeofence have the same two fields. */
  predicate NameTypeFits(v: Json)
  {
    StructFits(v) && StrFits(v, "name") && StrFits(v, "type")
  }

  predicate VariableFits(v: Json)
  {
    StructFits(v) && StrFits(v, "name") && StrFits(v, "type") && StrFits(v, "expression") && StrFits(v, "validate_message")
  }

  function VariableFrom(v: Json): CounterVariable
  {
    CounterVariable(Str(v, "name"), Str(v, "type"), Str(v, "expression"), Str(v, "validate_message"))
  }

  predicate CalculatorFits(v: Json)
  {
    && StructFits(v) && StrFits(v, "name") && Int64Fits(Field(v, "calc_id")) && StrFits(v, "type")
    && FlagFits(v, "allow_finish_after") && FlagFits(v, "allow_start_before")
    && StrsFit(v, "fields") && StrFits(v, "method") && StrFits(v, "validate_interval")
  }

  function CalculatorFrom(v: Json): CounterCalculator
  {
    CounterCalculator(Str(v, "name"), Int64From(Field(v, "calc_id")), Str(v, "type"),
                      Flag(v, "allow_finish_after"), Flag(v, "allow_start_before"),
                      Strs(v, "fields"), Str(v, "method"), Str(v, "validate_interval"))
  }

  predicate AccumulatorFits(v: Json)
  {
    StructFits(v) && StrFits(v, "name") && StrFits(v, "type") && StrFits(v, "counter") && StrFits(v, "reset_expression") && StrFits(v, "reset_interval")
  }

  function AccumulatorFrom(v: Json): CounterAccumulator
  {
    CounterAccumulator(Str(v, "name"), Str(v, "type"), Str(v, "counter"), Str(v, "reset_expression"), Str(v, "reset_interval"))
  }

  // ----- the per-kind decoders (unmarshalCounterExpression and the rest) -----
  // Each decodes the whole value into its struct: the struct filled from the
  // input when it fits, and otherwise the error naming that struct.

  function UnmarshalCounterExpression(raw: Json): (r: Result<Counter, DecodeError>)
    ensures r.Ok? <==> ExpressionFits(raw)
    ensures r.Ok? ==> r.value == Expression(ExpressionFrom(raw))
    ensures r.Err? ==> r.error == TypeMismatch("CounterExpression")
  {
    if ExpressionFits(raw) then Ok(Expression(ExpressionFrom(raw))) else Err(TypeMismatch("CounterExpression"))
  }

  function UnmarshalCounterDataset(raw: Json): (r: Result<Counter, DecodeError>)
    ensures r.Ok? <==> DatasetFits(raw)
    ensures r.Ok? ==> r.value == Dataset(DatasetFrom(raw))
    ensures r.Err? ==> r.error == TypeMismatch("CounterDataset")
  {
    if DatasetFits(raw) then Ok(Dataset(DatasetFrom(raw))) else Err(TypeMismatch("CounterDataset"))
  }

  function UnmarshalCounterRoute(raw: Json): (r: Result<Counter, DecodeError>)
    ensures r.Ok? <==> RouteFits(raw)
    ensures r.Ok? ==> r.value == Route(RouteFrom(raw))
    ensures r.Err? ==> r.error == TypeMismatch("CounterRoute")
  {
    if RouteFits(raw) then Ok(Route(RouteFrom(raw))) else Err(TypeMismatch("CounterRoute"))
  }

  function UnmarshalCounterDatetime(raw: Json): (r: Result<Counter, DecodeError>)
    ensures r.Ok? <==> DatetimeFits(raw)
    ensures r.Ok? ==> r.value == Datetime(DatetimeFrom(raw))
    ensures r.Err? ==> r.error == TypeMismatch("CounterDatetime")
  {
    if DatetimeFits(raw) then Ok(Datetime(DatetimeFrom(raw))) else Err(TypeMismatch("CounterDatetime"))
  }

  function UnmarshalCounterParameter(raw: Json): (r: Result<Counter, DecodeError>)
    ensures r.Ok? <==> ParameterFits(raw)
    ensures r.Ok? ==> r.value == Parameter(ParameterFrom(raw))
    ensures r.Err? ==> r.error == TypeMismatch("CounterParameter")
  {
    if ParameterFits(raw) then Ok(Parameter(ParameterFrom(raw))) else Err(TypeMismatch("CounterParameter"))
  }

  function UnmarshalCounterMessage(raw: Json): (r: Result<Counter, DecodeError>)
    ensures r.Ok? <==> MessageFits(raw)
    ensures r.Ok? ==> r.value == Message(MessageFrom(raw))
    ensures r.Err? ==> r.error == TypeMismatch("CounterMessage")
  {
    if MessageFits(raw) then Ok(Message(MessageFrom(raw))) else Err(TypeMismatch("CounterMessage"))
  }

  function UnmarshalCounterInterval(raw: Json): (r: Result<Counter, DecodeError>)
    ensures r.Ok? <==> IntervalFits(raw)
    ensures r.Ok? ==> r.value == Interval(IntervalFrom(raw))
    ensures r.Err? ==> r.error == TypeMismatch("CounterInterval")
  {
    if IntervalFits(raw) then Ok(Interval(IntervalFrom(raw))) else Err(TypeMismatch("CounterInterval"))
  }

  function UnmarshalCounterActive(raw: Json): (r: Result<Counter, DecodeError>)
    ensures r.Ok? <==> NameTypeFits(raw)
    ensures r.Ok? ==> r.value == Active(CounterActive(Str(raw, "name"), Str(raw, "type")))
    ensures r.Err? ==> r.error == TypeMismatch("CounterActive")
  {
    if NameTypeFits(raw) then Ok(Active(CounterActive(Str(raw, "name"), Str(raw, "type")))) else Err(TypeMismatch("CounterActive"))
  }

  function UnmarshalCounterGeofence(raw: Json): (r: Result<Counter, DecodeError>)
    ensures r.Ok? <==> NameTypeFits(raw)
    ensures r.Ok? ==> r.value == Geofence(CounterGeofence(Str(raw, "name"), Str(raw, "type")))
    ensures r.Err? ==> r.error == TypeMismatch("CounterGeofence")
  {
    if NameTypeFits(raw) then Ok(Geofence(CounterGeofence(Str(raw, "name"), Str(raw, "type")))) else Err(TypeMismatch("CounterGeofence"))
  }

  function UnmarshalCounterVariable(raw: Json): (r: Result<Counter, DecodeError>)
    ensures r.Ok? <==> VariableFits(raw)
    ensures r.Ok? ==> r.value == Variable(VariableFrom(raw))
    ensures r.Err? ==> r.error == TypeMismatch("CounterVariable")
  {
    if VariableFits(raw) then Ok(Variable(VariableFrom(raw))) else Err(TypeMismatch("CounterVariable"))
  }

  function UnmarshalCounterCalculator(raw: Json): (r: Result<Counter, DecodeError>)
    ensures r.Ok? <==> CalculatorFits(raw)
    ensures r.Ok? ==> r.value == Calculator(CalculatorFrom(raw))
    ensures r.Err? ==> r.error == TypeMismatch("CounterCalculator")
  {
    if CalculatorFits(raw) then Ok(Calculator(CalculatorFrom(raw))) else Err(TypeMismatch("CounterCalculator"))
  }

  function UnmarshalCounterAccumulator(raw: Json): (r: Result<Counter, DecodeError>)
    ensures r.Ok? <==> AccumulatorFits(raw)
    ensures r.Ok? ==> r.value == Accumulator(AccumulatorFrom(raw))
    ensures r.Err? ==> r.error == TypeMismatch("CounterAccumulator")
  {
    if AccumulatorFits(raw) then Ok(Accumulator(AccumulatorFrom(raw))) else Err(TypeMismatch("CounterAccumulator"))
  }

  /** The `%T` name Go prints for what a JSON value decodes to inside an interface{}. */
  function GoTypeName(value: Option<Json>): (t: string)
    ensures t == "string" <==> value.Some? && value.value.JString?
    ensures t == "float64" <==> value.Some? && value.value.JNumber?
    ensures t == "bool" <==> value.Some? && value.value.JBool?
  {
    if IsNull(value) then "<nil>"
    else match value.value
      case JBool(_) => "bool"
      case JNumber(_) => "float64"
      case JString(_) => "string"
      case JArray(_) => "[]interface {}"
      case JObject(_) => "map[string]interface {}"
  }

  /** The probe of unmarshalCounterSpecified: name, type and an untyped value. */
  predicate SpecifiedProbeFits(raw: Json)
  {
    StructFits(raw) && StrFits(raw, "name") && StrFits(raw, "type")
  }

  const SpecifiedProbe := "struct { Name string; Value interface {}; Type string }"

  /** unmarshalCounterSpecified: the kind of `value` picks the struct, built by
      its constructor (so its Type is "specified" whatever the input's was);
      every other kind is an unsupported value type. */
  function UnmarshalCounterSpecified(raw: Json): (r: Result<Counter, DecodeError>)
    ensures !SpecifiedProbeFits(raw) ==> r == Err(TypeMismatch(SpecifiedProbe))
    ensures r.Ok? ==> SpecifiedProbeFits(raw) && StoredType(r.value) == VariantTag(r.value) == "specified"
    ensures r.Ok? ==> CounterName(r.value) == Str(raw, "name")
    ensures r.Ok? ==> Field(raw, "value").Some? && match Field(raw, "value").value
      case JString(s) => r.value == SpecifiedString(NewCounterSpecifiedString(Str(raw, "name"), s))
      case JNumber(n) => r.value == SpecifiedNumber(NewCounterSpecifiedNumber(Str(raw, "name"), n))
      case JBool(b) => r.value == SpecifiedBoolean(NewCounterSpecifiedBoolean(Str(raw, "name"), b))
      case _ => false
    ensures SpecifiedProbeFits(raw) ==> match GoTypeName(Field(raw, "value"))
      case "string" => r.Ok? && r.value.SpecifiedString?
      case "float64" => r.Ok? && r.value.SpecifiedNumber?
      case "bool" => r.Ok? && r.value.SpecifiedBoolean?
      case other => r == Err(UnsupportedSpecifiedValue(other))
  {
    if !SpecifiedProbeFits(raw) then Err(TypeMismatch(SpecifiedProbe))
    else
      var name := Str(raw, "name");
      var value := Field(raw, "value");
      if value.Some? && value.value.JString? then Ok(SpecifiedString(NewCounterSpecifiedString(name, value.value.s)))
      else if value.Some? && value.value.JNumber? then Ok(SpecifiedNumber(NewCounterSpecifiedNumber(name, value.value.n)))
      else if value.Some? && value.value.JBool? then Ok(SpecifiedBoolean(NewCounterSpecifiedBoolean(name, value.value.b)))
      else Err(UnsupportedSpecifiedValue(GoTypeName(value)))
  }

  /** The probe of unmarshalCounter: a struct with only a Type string. */
  predicate TypeProbeFits(raw: Json)
  {
    StructFits(raw) && StrFits(raw, "type")
  }

  const TypeProbe := "struct { Type string }"

  /** unmarshalCounter: probe the tag, then decode the whole value as the
      struct the tag names. A decoded counter is always the struct its tag
      selects and holds that tag as its Type. */
  function UnmarshalCounter(raw: Json): (r: Result<Counter, DecodeError>)
    ensures !TypeProbeFits(raw) ==> r == Err(TypeMismatch(TypeProbe))
    ensures TypeProbeFits(raw) && Str(raw, "type") !in CounterTags ==> r == Err(UnknownCounterType(Str(raw, "type")))
    ensures r.Ok? ==> Str(raw, "type") in CounterTags
    ensures r.Ok? ==> VariantTag(r.value) == StoredType(r.value) == Str(raw, "type")
    ensures r.Ok? ==> CounterName(r.value) == Str(raw, "name")
  {
    if !TypeProbeFits(raw) then Err(TypeMismatch(TypeProbe))
    else match Str(raw, "type")
      case "expression" => UnmarshalCounterExpression(raw)
      case "dataset" => UnmarshalCounterDataset(raw)
      case "route" => UnmarshalCounterRoute(raw)
      case "datetime" => UnmarshalCounterDatetime(raw)
      case "parameter" => UnmarshalCounterParameter(raw)
      case "message" => UnmarshalCounterMessage(raw)
      case "interval" => UnmarshalCounterInterval(raw)
      case "active" => UnmarshalCounterActive(raw)
      case "geofence" => UnmarshalCounterGeofence(raw)
      case "variable" => UnmarshalCounterVariable(raw)
      case "specified" => UnmarshalCounterSpecified(raw)
      case "calculator" => UnmarshalCounterCalculator(raw)
      case "accumulator" => UnmarshalCounterAccumulator(raw)
      case other => Err(UnknownCounterType(other))
  }

  /** A value that is neither an object nor null never reaches the dispatch. */
  lemma NonObjectFailsAtProbe(raw: Json)
    requires !raw.JObject? && !raw.JNull?
    ensures UnmarshalCounter(raw) == Err(TypeMismatch(TypeProbe))
  {
  }

  /** A missing (or null) type reads as "" and is an unknown counter type. */
  lemma MissingTypeIsUnknown(raw: Json)
    requires raw.JNull? || (raw.JObject? && ("type" !in raw.fields || raw.fields["type"].JNull?))
    ensures UnmarshalCounter(raw) == Err(UnknownCounterType(""))
  {
  }

  /** unmarshalCounters: one counter per element in order, or, at the first
      element that fails, that element's error and no counters at all. */
  method UnmarshalCounters(raws: seq<Json>) returns (counters: seq<Counter>, err: Option<DecodeError>)
    ensures err.None? ==> |counters| == |raws| && forall i :: 0 <= i < |raws| ==> UnmarshalCounter(raws[i]) == Ok(counters[i])
    ensures err.None? <==> forall i :: 0 <= i < |raws| ==> UnmarshalCounter(raws[i]).Ok?
    ensures err == DecodeEach(raws, UnmarshalCounter).err
    ensures counters == if err.None? then DecodeEach(raws, UnmarshalCounter).value else []
    ensures err.Some? ==> exists k :: 0 <= k < |raws| && UnmarshalCounter(raws[k]) == Err(err.value) &&
                                      (forall i :: 0 <= i < k ==> UnmarshalCounter(raws[i]).Ok?)
  {
    var done;
    done, err := DecodeAppend([], raws, UnmarshalCounter);
    DecodeEachSucceedsIff(raws, UnmarshalCounter);
    counters := if err.None? then done else [];
  }

  // ----- encoding (json.Marshal through the struct tags) -----

  function EncodeDatasetField(f: CounterDatasetField): Json
  {
    JObject(map["name" := JString(f.name), "value" := JString(f.value)])
  }

  function EncodeExpression(x: CounterExpression): Json
  {
    var m := map["name" := JString(x.name), "type" := JString(x.tag), "expression" := JString(x.expression)];
    JObject(PutIf(PutIf(m, x.methodName != "", "method", JString(x.methodName)), x.validateMessage != "", "validate_message", JString(x.validateMessage)))
  }

  function EncodeDataset(x: CounterDataset): Json
  {
    var m := map["name" := JString(x.name), "type" := JString(x.tag), "fields" := EncodeList(x.fields, EncodeDatasetField)];
    JObject(PutIf(PutIf(m, x.allowUnknown, "allow_unknown", JBool(true)), x.validateMessage != "", "validate_message", JString(x.validateMessage)))
  }

  function EncodeRoute(x: CounterRoute): Json
  {
    var m := map["name" := JString(x.name), "type" := JString(x.tag)];
    JObject(PutIf(m, x.validateMessage != "", "validate_message", JString(x.validateMessage)))
  }

  function EncodeDatetime(x: CounterDatetime): Json
  {
    var m := map["name" := JString(x.name), "type" := JString(x.tag)];
    JObject(PutIf(PutIf(PutIf(m, x.format != "", "format", JString(x.format)), x.interval != "", "interval", JString(x.interval)),
                  x.validateMessage != "", "validate_message", JString(x.validateMessage)))
  }

  function EncodeParameter(x: CounterParameter): Json
  {
    var m := map["name" := JString(x.name), "type" := JString(x.tag), "parameter" := JString(x.parameter)];
    JObject(PutIf(PutIf(m, x.methodName != "", "method", JString(x.methodName)), x.validateMessage != "", "validate_message", JString(x.validateMessage)))
  }

  function EncodeExtremum(e: CounterMessageExtremum): Json
  {
    JObject(map["type" := JString(e.tag), "Expression" := JString(e.expression)])
  }

  /** omitempty has no effect on a struct-valued field: extremum is always written. */
  function EncodeMessage(x: CounterMessage): Json
  {
    var m := map["name" := JString(x.name), "type" := JString(x.tag), "extremum" := EncodeExtremum(x.extremum)];
    JObject(PutIf(PutIf(PutIf(m, x.methodName != "", "method", JString(x.methodName)), x.fields != [], "fields", EncodeStrs(x.fields)),
                  x.validateMessage != "", "validate_message", JString(x.validateMessage)))
  }

  function EncodeVariable(x: CounterVariable): Json
  {
    var m := map["name" := JString(x.name), "type" := JString(x.tag), "expression" := JString(x.expression)];
    JObject(PutIf(m, x.validateMessage != "", "validate_message", JString(x.validateMessage)))
  }

  function EncodeCalculator(x: CounterCalculator): Json
  {
    var m := map["name" := JString(x.name), "calc_id" := EncodeInt(x.calculatorId), "type" := JString(x.tag)];
    var m1 := PutIf(PutIf(m, x.allowFinishAfter, "allow_finish_after", JBool(true)), x.allowStartBefore, "allow_start_before", JBool(true));
    JObject(PutIf(PutIf(PutIf(m1, x.fields != [], "fields", EncodeStrs(x.fields)), x.methodName != "", "method", JString(x.methodName)),
                  x.validateInterval != "", "validate_interval", JString(x.validateInterval)))
  }

  function EncodeAccumulator(x: CounterAccumulator): Json
  {
    var m := map["name" := JString(x.name), "type" := JString(x.tag), "counter" := JString(x.counter)];
    JObject(PutIf(PutIf(m, x.resetExpression != "", "reset_expression", JString(x.resetExpression)),
                  x.resetInterval != "", "reset_interval", JString(x.resetInterval)))
  }

  /** json.Marshal of a counter through its struct's field tags (omitempty
      fields left out when empty). */
  function EncodeCounter(c: Counter): Json
  {
    match c
    case Expression(x) => EncodeExpression(x)
    case Dataset(x) => EncodeDataset(x)
    case Route(x) => EncodeRoute(x)
    case Datetime(x) => EncodeDatetime(x)
    case Parameter(x) => EncodeParameter(x)
    case Message(x) => EncodeMessage(x)
    case Interval(x) => JObject(map["name" := JString(x.name), "type" := JString(x.tag), "expression" := JString(x.expression)])
    case Active(x) => JObject(map["name" := JString(x.name), "type" := JString(x.tag)])
    case Geofence(x) => JObject(map["name" := JString(x.name), "type" := JString(x.tag)])
    case Variable(x) => EncodeVariable(x)
    case SpecifiedString(x) => JObject(map["name" := JString(x.name), "type" := JString(x.tag), "value" := JString(x.value)])
    case SpecifiedNumber(x) => JObject(map["name" := JString(x.name), "type" := JString(x.tag), "value" := JNumber(x.value)])
    case SpecifiedBoolean(x) => JObject(map["name" := JString(x.name), "type" := JString(x.tag), "value" := JBool(x.value)])
    case Calculator(x) => EncodeCalculator(x)
    case Accumulator(x) => EncodeAccumulator(x)
  }

  // ----- round trips, one per struct -----

  lemma ExpressionFields(x: CounterExpression)
    ensures ExpressionFits(EncodeExpression(x)) && ExpressionFrom(EncodeExpression(x)) == x
  {
  }

  lemma DatasetFields(x: CounterDataset)
    ensures DatasetFits(EncodeDataset(x)) && DatasetFrom(EncodeDataset(x)) == x
  {
    forall f | f in x.fields ensures DatasetFieldFits(EncodeDatasetField(f)) && DatasetFieldFrom(EncodeDatasetField(f)) == f {
    }
    ListRoundTrip(x.fields, EncodeDatasetField, DatasetFieldFits, DatasetFieldFrom);
  }

  lemma RouteFields(x: CounterRoute)
    ensures RouteFits(EncodeRoute(x)) && RouteFrom(EncodeRoute(x)) == x
  {
  }

  lemma DatetimeFields(x: CounterDatetime)
    ensures DatetimeFits(EncodeDatetime(x)) && DatetimeFrom(EncodeDatetime(x)) == x
  {
  }

  lemma ParameterFields(x: CounterParameter)
    ensures ParameterFits(EncodeParameter(x)) && ParameterFrom(EncodeParameter(x)) == x
  {
  }

  lemma MessageKeys(x: CounterMessage)
    ensures var v := EncodeMessage(x);
      && Field(v, "name") == Some(JString(x.name))
      && Field(v, "type") == Some(JString(x.tag))
      && Field(v, "extremum") == Some(EncodeExtremum(x.extremum))
      && Field(v, "method") == (if x.methodName != "" then Some(JString(x.methodName)) else None)
      && Field(v, "fields") == (if x.fields != [] then Some(EncodeStrs(x.fields)) else None)
      && Field(v, "validate_message") == (if x.validateMessage != "" then Some(JString(x.validateMessage)) else None)
  {
  }

  lemma MessageFields(x: CounterMessage)
    ensures MessageFits(EncodeMessage(x)) && MessageFrom(EncodeMessage(x)) == x
  {
    MessageKeys(x);
    StrsRoundTrip(x.fields);
    assert ExtremumFits(EncodeExtremum(x.extremum)) && ExtremumFrom(EncodeExtremum(x.extremum)) == x.extremum;
  }

  lemma VariableFields(x: CounterVariable)
    ensures VariableFits(EncodeVariable(x)) && VariableFrom(EncodeVariable(x)) == x
  {
  }

  lemma CalculatorRequiredKeys(x: CounterCalculator)
    ensures var v := EncodeCalculator(x);
      && Field(v, "name") == Some(JString(x.name))
      && Field(v, "type") == Some(JString(x.tag))
      && Field(v, "calc_id") == Some(EncodeInt(x.calculatorId))
  {
  }

  lemma CalculatorOptionalKeys(x: CounterCalculator)
    ensures var v := EncodeCalculator(x);
      && Field(v, "allow_finish_after") == (if x.allowFinishAfter then Some(JBool(true)) else None)
      && Field(v, "allow_start_before") == (if x.allowStartBefore then Some(JBool(true)) else None)
      && Field(v, "fields") == (if x.fields != [] then Some(EncodeStrs(x.fields)) else None)
      && Field(v, "method") == (if x.methodName != "" then Some(JString(x.methodName)) else None)
      && Field(v, "validate_interval") == (if x.validateInterval != "" then Some(JString(x.validateInterval)) else None)
  {
  }

  lemma CalculatorFields(x: CounterCalculator)
    ensures CalculatorFits(EncodeCalculator(x)) && CalculatorFrom(EncodeCalculator(x)) == x
  {
    CalculatorRequiredKeys(x);
    CalculatorOptionalKeys(x);
    StrsRoundTrip(x.fields);
  }

  lemma AccumulatorFields(x: CounterAccumulator)
    ensures AccumulatorFits(EncodeAccumulator(x)) && AccumulatorFrom(EncodeAccumulator(x)) == x
  {
  }

  // ----- the dispatch, one tag at a time -----

  lemma SelectsExpression(raw: Json)
    requires TypeProbeFits(raw) && Str(raw, "type") == "expression"
    ensures UnmarshalCounter(raw) == UnmarshalCounterExpression(raw)
  {
  }

  lemma SelectsDataset(raw: Json)
    requires TypeProbeFits(raw) && Str(raw, "type") == "dataset"
    ensures UnmarshalCounter(raw) == UnmarshalCounterDataset(raw)
  {
  }

  lemma SelectsRoute(raw: Json)
    requires TypeProbeFits(raw) && Str(raw, "type") == "route"
    ensures UnmarshalCounter(raw) == UnmarshalCounterRoute(raw)
  {
  }

  lemma SelectsDatetime(raw: Json)
    requires TypeProbeFits(raw) && Str(raw, "type") == "datetime"
    ensures UnmarshalCounter(raw) == UnmarshalCounterDatetime(raw)
  {
  }

  lemma SelectsParameter(raw: Json)
    requires TypeProbeFits(raw) && Str(raw, "type") == "parameter"
    ensures UnmarshalCounter(raw) == UnmarshalCounterParameter(raw)
  {
  }

  lemma SelectsMessage(raw: Json)
    requires TypeProbeFits(raw) && Str(raw, "type") == "message"
    ensures UnmarshalCounter(raw) == UnmarshalCounterMessage(raw)
  {
  }

  lemma SelectsInterval(raw: Json)
    requires TypeProbeFits(raw) && Str(raw, "type") == "interval"
    ensures UnmarshalCounter(raw) == UnmarshalCounterInterval(raw)
  {
  }

  lemma SelectsActive(raw: Json)
    requires TypeProbeFits(raw) && Str(raw, "type") == "active"
    ensures UnmarshalCounter(raw) == UnmarshalCounterActive(raw)
  {
  }

  lemma SelectsGeofence(raw: Json)
    requires TypeProbeFits(raw) && Str(raw, "type") == "geofence"
    ensures UnmarshalCounter(raw) == UnmarshalCounterGeofence(raw)
  {
  }

  lemma SelectsVariable(raw: Json)
    requires TypeProbeFits(raw) && Str(raw, "type") == "variable"
    ensures UnmarshalCounter(raw) == UnmarshalCounterVariable(raw)
  {
  }

  lemma SelectsCalculator(raw: Json)
    requires TypeProbeFits(raw) && Str(raw, "type") == "calculator"
    ensures UnmarshalCounter(raw) == UnmarshalCounterCalculator(raw)
  {
  }

  lemma SelectsAccumulator(raw: Json)
    requires TypeProbeFits(raw) && Str(raw, "type") == "accumulator"
    ensures UnmarshalCounter(raw) == UnmarshalCounterAccumulator(raw)
  {
  }

  lemma SelectsSpecified(raw: Json)
    requires TypeProbeFits(raw) && Str(raw, "type") == "specified"
    ensures UnmarshalCounter(raw) == UnmarshalCounterSpecified(raw)
  {
  }

  lemma ExpressionRoundTrip(x: CounterExpression)
    requires x.tag == "expression"
    ensures UnmarshalCounter(EncodeCounter(Expression(x))) == Ok(Expression(x))
  {
    var v := EncodeExpression(x);
    assert EncodeCounter(Expression(x)) == v;
    ExpressionFields(x);
    assert TypeProbeFits(v);
    SelectsExpression(v);
  }

  lemma DatasetRoundTrip(x: CounterDataset)
    requires x.tag == "dataset"
    ensures UnmarshalCounter(EncodeCounter(Dataset(x))) == Ok(Dataset(x))
  {
    var v := EncodeDataset(x);
    assert EncodeCounter(Dataset(x)) == v;
    DatasetFields(x);
    assert TypeProbeFits(v);
    SelectsDataset(v);
  }

  lemma RouteRoundTrip(x: CounterRoute)
    requires x.tag == "route"
    ensures UnmarshalCounter(EncodeCounter(Route(x))) == Ok(Route(x))
  {
    var v := EncodeRoute(x);
    assert EncodeCounter(Route(x)) == v;
    RouteFields(x);
    assert TypeProbeFits(v);
    SelectsRoute(v);
  }

  lemma DatetimeRoundTrip(x: CounterDatetime)
    requires x.tag == "datetime"
    ensures UnmarshalCounter(EncodeCounter(Datetime(x))) == Ok(Datetime(x))
  {
    var v := EncodeDatetime(x);
    assert EncodeCounter(Datetime(x)) == v;
    DatetimeFields(x);
    assert TypeProbeFits(v);
    SelectsDatetime(v);
  }

  lemma ParameterRoundTrip(x: CounterParameter)
    requires x.tag == "parameter"
    ensures UnmarshalCounter(EncodeCounter(Parameter(x))) == Ok(Parameter(x))
  {
    var v := EncodeParameter(x);
    assert EncodeCounter(Parameter(x)) == v;
    ParameterFields(x);
    assert TypeProbeFits(v);
    SelectsParameter(v);
  }

  lemma MessageRoundTrip(x: CounterMessage)
    requires x.tag == "message"
    ensures UnmarshalCounter(EncodeCounter(Message(x))) == Ok(Message(x))
  {
    var v := EncodeMessage(x);
    assert EncodeCounter(Message(x)) == v;
    MessageFields(x);
    assert TypeProbeFits(v);
    SelectsMessage(v);
  }

  lemma IntervalRoundTrip(x: CounterInterval)
    requires x.tag == "interval"
    ensures UnmarshalCounter(EncodeCounter(Interval(x))) == Ok(Interval(x))
  {
    var v := EncodeCounter(Interval(x));
    assert IntervalFits(v) && IntervalFrom(v) == x;
    assert TypeProbeFits(v);
    SelectsInterval(v);
  }

  lemma ActiveRoundTrip(x: CounterActive)
    requires x.tag == "active"
    ensures UnmarshalCounter(EncodeCounter(Active(x))) == Ok(Active(x))
  {
    var v := EncodeCounter(Active(x));
    assert NameTypeFits(v);
    assert TypeProbeFits(v);
    SelectsActive(v);
  }

  lemma GeofenceRoundTrip(x: CounterGeofence)
    requires x.tag == "geofence"
    ensures UnmarshalCounter(EncodeCounter(Geofence(x))) == Ok(Geofence(x))
  {
    var v := EncodeCounter(Geofence(x));
    assert NameTypeFits(v);
    assert TypeProbeFits(v);
    SelectsGeofence(v);
  }

  lemma VariableRoundTrip(x: CounterVariable)
    requires x.tag == "variable"
    ensures UnmarshalCounter(EncodeCounter(Variable(x))) == Ok(Variable(x))
  {
    var v := EncodeVariable(x);
    assert EncodeCounter(Variable(x)) == v;
    VariableFields(x);
    assert TypeProbeFits(v);
    SelectsVariable(v);
  }

  lemma CalculatorRoundTrip(x: CounterCalculator)
    requires x.tag == "calculator"
    ensures UnmarshalCounter(EncodeCounter(Calculator(x))) == Ok(Calculator(x))
  {
    var v := EncodeCalculator(x);
    assert EncodeCounter(Calculator(x)) == v;
    CalculatorFields(x);
    assert TypeProbeFits(v);
    SelectsCalculator(v);
  }

  lemma AccumulatorRoundTrip(x: CounterAccumulator)
    requires x.tag == "accumulator"
    ensures UnmarshalCounter(EncodeCounter(Accumulator(x))) == Ok(Accumulator(x))
  {
    var v := EncodeAccumulator(x);
    assert EncodeCounter(Accumulator(x)) == v;
    AccumulatorFields(x);
    assert TypeProbeFits(v);
    SelectsAccumulator(v);
  }

  lemma SpecifiedStringRoundTrip(x: CounterSpecifiedString)
    requires x.tag == "specified"
    ensures UnmarshalCounter(EncodeCounter(SpecifiedString(x))) == Ok(SpecifiedString(x))
  {
    var v := EncodeCounter(SpecifiedString(x));
    assert SpecifiedProbeFits(v) && Str(v, "type") == "specified";
    SelectsSpecified(v);
  }

  lemma SpecifiedNumberRoundTrip(x: CounterSpecifiedNumber)
    requires x.tag == "specified"
    ensures UnmarshalCounter(EncodeCounter(SpecifiedNumber(x))) == Ok(SpecifiedNumber(x))
  {
    var v := EncodeCounter(SpecifiedNumber(x));
    assert SpecifiedProbeFits(v) && Str(v, "type") == "specified";
    SelectsSpecified(v);
  }

  lemma SpecifiedBooleanRoundTrip(x: CounterSpecifiedBoolean)
    requires x.tag == "specified"
    ensures UnmarshalCounter(EncodeCounter(SpecifiedBoolean(x))) == Ok(SpecifiedBoolean(x))
  {
    var v := EncodeCounter(SpecifiedBoolean(x));
    assert SpecifiedProbeFits(v) && Str(v, "type") == "specified";
    SelectsSpecified(v);
  }

  /** Every counter whose Type is its own tag (every counter a constructor
      builds) survives serialisation and decoding unchanged: the dispatch
      selects the struct it was encoded from. */
  lemma CounterRoundTrip(c: Counter)
    requires StoredType(c) == VariantTag(c)
    ensures UnmarshalCounter(EncodeCounter(c)) == Ok(c)
  {
    match c
    case Expression(x) => ExpressionRoundTrip(x);
    case Dataset(x) => DatasetRoundTrip(x);
    case Route(x) => RouteRoundTrip(x);
    case Datetime(x) => DatetimeRoundTrip(x);
    case Parameter(x) => ParameterRoundTrip(x);
    case Message(x) => MessageRoundTrip(x);
    case Interval(x) => IntervalRoundTrip(x);
    case Active(x) => ActiveRoundTrip(x);
    case Geofence(x) => GeofenceRoundTrip(x);
    case Variable(x) => VariableRoundTrip(x);
    case SpecifiedString(x) => SpecifiedStringRoundTrip(x);
    case SpecifiedNumber(x) => SpecifiedNumberRoundTrip(x);
    case SpecifiedBoolean(x) => SpecifiedBooleanRoundTrip(x);
    case Calculator(x) => CalculatorRoundTrip(x);
    case Accumulator(x) => AccumulatorRoundTrip(x);
  }

  // ----- constructors and their options -----

  datatype CounterExpressionOption = CEWithMethod(methodName: string)

  function ApplyCounterExpressionOption(x: CounterExpression, o: CounterExpressionOption): (r: CounterExpression)
    ensures r.name == x.name && r.tag == x.tag && r.expression == x.expression && r.validateMessage == x.validateMessage
    ensures r.methodName == o.methodName
  {
    x.(methodName := o.methodName)
  }

  /** Type is the variant's tag and the positional arguments are stored; no option can change them. */
  method NewCounterExpression(name: string, expression: string, options: seq<CounterExpressionOption>) returns (x: CounterExpression)
    ensures x == ApplyAll(CounterExpression(name, "expression", expression, "", ""), options, ApplyCounterExpressionOption)
    ensures x.name == name && x.tag == "expression" && x.expression == expression
  {
    var base := CounterExpression(name, "expression", expression, "", "");
    x := ApplyOptions(base, options, ApplyCounterExpressionOption);
    ApplyAllPreserves(base, options, ApplyCounterExpressionOption,
      (y: CounterExpression) => y.name == name && y.tag == "expression" && y.expression == expression);
  }

  datatype CounterDatasetOption = CDWithAllowUnknown(allowUnknown: bool) | CDWithValidateMessage(validateMessage: string)

  function ApplyCounterDatasetOption(x: CounterDataset, o: CounterDatasetOption): (r: CounterDataset)
    ensures r.name == x.name && r.tag == x.tag && r.fields == x.fields
    ensures r.allowUnknown == (if o.CDWithAllowUnknown? then o.allowUnknown else x.allowUnknown)
    ensures r.validateMessage == (if o.CDWithValidateMessage? then o.validateMessage else x.validateMessage)
  {
    match o
    case CDWithAllowUnknown(b) => x.(allowUnknown := b)
    case CDWithValidateMessage(s) => x.(validateMessage := s)
  }

  method NewCounterDataset(name: string, fields: seq<CounterDatasetField>, options: seq<CounterDatasetOption>) returns (x: CounterDataset)
    ensures x == ApplyAll(CounterDataset(name, "dataset", fields, false, ""), options, ApplyCounterDatasetOption)
    ensures x.name == name && x.tag == "dataset" && x.fields == fields
  {
    var base := CounterDataset(name, "dataset", fields, false, "");
    x := ApplyOptions(base, options, ApplyCounterDatasetOption);
    ApplyAllPreserves(base, options, ApplyCounterDatasetOption,
      (y: CounterDataset) => y.name == name && y.tag == "dataset" && y.fields == fields);
  }

  datatype CounterRouteOption = CRWithValidateMessage(validateMessage: string)

  function ApplyCounterRouteOption(x: CounterRoute, o: CounterRouteOption): (r: CounterRoute)
    ensures r.name == x.name && r.tag == x.tag && r.validateMessage == o.validateMessage
  {
    x.(validateMessage := o.validateMessage)
  }

  method NewCounterRoute(name: string, options: seq<CounterRouteOption>) returns (x: CounterRoute)
    ensures x == ApplyAll(CounterRoute(name, "route", ""), options, ApplyCounterRouteOption)
    ensures x.name == name && x.tag == "route"
  {
    var base := CounterRoute(name, "route", "");
    x := ApplyOptions(base, options, ApplyCounterRouteOption);
    ApplyAllPreserves(base, options, ApplyCounterRouteOption, (y: CounterRoute) => y.name == name && y.tag == "route");
  }

  datatype CounterDatetimeOption =
    | CDatetimeWithFormat(format: string)
    | CDatetimeWithInterval(interval: string)
    | CDatetimeWithValidateMessage(validateMessage: string)

  function ApplyCounterDatetimeOption(x: CounterDatetime, o: CounterDatetimeOption): (r: CounterDatetime)
    ensures r.name == x.name && r.tag == x.tag
    ensures r.format == (if o.CDatetimeWithFormat? then o.format else x.format)
    ensures r.interval == (if o.CDatetimeWithInterval? then o.interval else x.interval)
    ensures r.validateMessage == (if o.CDatetimeWithValidateMessage? then o.validateMessage else x.validateMessage)
  {
    match o
    case CDatetimeWithFormat(s) => x.(format := s)
    case CDatetimeWithInterval(s) => x.(interval := s)
    case CDatetimeWithValidateMessage(s) => x.(validateMessage := s)
  }

  method NewCounterDatetime(name: string, options: seq<CounterDatetimeOption>) returns (x: CounterDatetime)
    ensures x == ApplyAll(CounterDatetime(name, "datetime", "", "", ""), options, ApplyCounterDatetimeOption)
    ensures x.name == name && x.tag == "datetime"
  {
    var base := CounterDatetime(name, "datetime", "", "", "");
    x := ApplyOptions(base, options, ApplyCounterDatetimeOption);
    ApplyAllPreserves(base, options, ApplyCounterDatetimeOption, (y: CounterDatetime) => y.name == name && y.tag == "datetime");
  }

  datatype CounterParameterOption = CPWithMethod(methodName: string) | CPWithValidateMessage(validateMessage: string)

  function ApplyCounterParameterOption(x: CounterParameter, o: CounterParameterOption): (r: CounterParameter)
    ensures r.name == x.name && r.tag == x.tag && r.parameter == x.parameter
    ensures r.methodName == (if o.CPWithMethod? then o.methodName else x.methodName)
    ensures r.validateMessage == (if o.CPWithValidateMessage? then o.validateMessage else x.validateMessage)
  {
    match o
    case CPWithMethod(s) => x.(methodName := s)
    case CPWithValidateMessage(s) => x.(validateMessage := s)
  }

  method NewCounterParameter(name: string, parameter: string, options: seq<CounterParameterOption>) returns (x: CounterParameter)
    ensures x == ApplyAll(CounterParameter(name, "parameter", parameter, "", ""), options, ApplyCounterParameterOption)
    ensures x.name == name && x.tag == "parameter" && x.parameter == parameter
  {
    var base := CounterParameter(name, "parameter", parameter, "", "");
    x := ApplyOptions(base, options, ApplyCounterParameterOption);
    ApplyAllPreserves(base, options, ApplyCounterParameterOption,
      (y: CounterParameter) => y.name == name && y.tag == "parameter" && y.parameter == parameter);
  }

  datatype CounterMessageOption =
    | CMWithMethod(methodName: string)
    | CMWithFields(fields: seq<string>)
    | CMWithExtremum(extremumType: string, expression: string)
    | CMWithValidateMessage(validateMessage: string)

  function ApplyCounterMessageOption(x: CounterMessage, o: CounterMessageOption): (r: CounterMessage)
    ensures r.name == x.name && r.tag == x.tag
    ensures r.methodName == (if o.CMWithMethod? then o.methodName else x.methodName)
    ensures r.fields == (if o.CMWithFields? then o.fields else x.fields)
    ensures r.extremum == (if o.CMWithExtremum? then CounterMessageExtremum(o.extremumType, o.expression) else x.extremum)
    ensures r.validateMessage == (if o.CMWithValidateMessage? then o.validateMessage else x.validateMessage)
  {
    match o
    case CMWithMethod(s) => x.(methodName := s)
    case CMWithFields(fs) => x.(fields := fs)
    case CMWithExtremum(t, e) => x.(extremum := CounterMessageExtremum(t, e))
    case CMWithValidateMessage(s) => x.(validateMessage := s)
  }

  method NewCounterMessage(name: string, options: seq<CounterMessageOption>) returns (x: CounterMessage)
    ensures x == ApplyAll(CounterMessage(name, "message", "", [], ZeroExtremum, ""), options, ApplyCounterMessageOption)
    ensures x.name == name && x.tag == "message"
  {
    var base := CounterMessage(name, "message", "", [], ZeroExtremum, "");
    x := ApplyOptions(base, options, ApplyCounterMessageOption);
    ApplyAllPreserves(base, options, ApplyCounterMessageOption, (y: CounterMessage) => y.name == name && y.tag == "message");
  }

  function NewCounterInterval(name: string, expression: string): (x: CounterInterval)
    ensures x.name == name && x.tag == VariantTag(Interval(x)) && x.expression == expression
  {
    CounterInterval(name, "interval", expression)
  }

  function NewCounterActive(name: string): (x: CounterActive)
    ensures x.name == name && x.tag == VariantTag(Active(x))
  {
    CounterActive(name, "active")
  }

  function NewCounterGeofence(name: string): (x: CounterGeofence)
    ensures x.name == name && x.tag == VariantTag(Geofence(x))
  {
    CounterGeofence(name, "geofence")
  }

  datatype CounterVariableOption = CVWithValidateMessage(validateMessage: string)

  function ApplyCounterVariableOption(x: CounterVariable, o: CounterVariableOption): (r: CounterVariable)
    ensures r.name == x.name && r.tag == x.tag && r.expression == x.expression && r.validateMessage == o.validateMessage
  {
    x.(validateMessage := o.validateMessage)
  }

  method NewCounterVariable(name: string, expression: string, options: seq<CounterVariableOption>) returns (x: CounterVariable)
    ensures x == ApplyAll(CounterVariable(name, "variable", expression, ""), options, ApplyCounterVariableOption)
    ensures x.name == name && x.tag == "variable" && x.expression == expression
  {
    var base := CounterVariable(name, "variable", expression, "");
    x := ApplyOptions(base, options, ApplyCounterVariableOption);
    ApplyAllPreserves(base, options, ApplyCounterVariableOption,
      (y: CounterVariable) => y.name == name && y.tag == "variable" && y.expression == expression);
  }

  function NewCounterSpecifiedString(name: string, value: string): (x: CounterSpecifiedString)
    ensures x.name == name && x.tag == VariantTag(SpecifiedString(x)) && x.value == value
  {
    CounterSpecifiedString(name, "specified", value)
  }

  function NewCounterSpecifiedNumber(name: string, value: Number): (x: CounterSpecifiedNumber)
    ensures x.name == name && x.tag == VariantTag(SpecifiedNumber(x)) && x.value == value
  {
    CounterSpecifiedNumber(name, "specified", value)
  }

  function NewCounterSpecifiedBoolean(name: string, value: bool): (x: CounterSpecifiedBoolean)
    ensures x.name == name && x.tag == VariantTag(SpecifiedBoolean(x)) && x.value == value
  {
    CounterSpecifiedBoolean(name, "specified", value)
  }

  datatype CounterCalculatorOption =
    | CCWithAllowFinishAfter(allowFinishAfter: bool)
    | CCWithAllowStartBefore(allowStartBefore: bool)
    | CCWithFields(fields: seq<string>)
    | CCWithMethod(methodName: string)
    | CCWithValidateInterval(validateInterval: string)

  function ApplyCounterCalculatorOption(x: CounterCalculator, o: CounterCalculatorOption): (r: CounterCalculator)
    ensures r.name == x.name && r.calculatorId == x.calculatorId && r.tag == x.tag
    ensures r.allowFinishAfter == (if o.CCWithAllowFinishAfter? then o.allowFinishAfter else x.allowFinishAfter)
    ensures r.allowStartBefore == (if o.CCWithAllowStartBefore? then o.allowStartBefore else x.allowStartBefore)
    ensures r.fields == (if o.CCWithFields? then o.fields else x.fields)
    ensures r.methodName == (if o.CCWithMethod? then o.methodName else x.methodName)
    ensures r.validateInterval == (if o.CCWithValidateInterval? then o.validateInterval else x.validateInterval)
  {
    match o
    case CCWithAllowFinishAfter(b) => x.(allowFinishAfter := b)
    case CCWithAllowStartBefore(b) => x.(allowStartBefore := b)
    case CCWithFields(fs) => x.(fields := fs)
    case CCWithMethod(s) => x.(methodName := s)
    case CCWithValidateInterval(s) => x.(validateInterval := s)
  }

  method NewCounterCalculator(name: string, calcId: int64, options: seq<CounterCalculatorOption>) returns (x: CounterCalculator)
    ensures x == ApplyAll(CounterCalculator(name, calcId, "calculator", false, false, [], "", ""), options, ApplyCounterCalculatorOption)
    ensures x.name == name && x.calculatorId == calcId && x.tag == "calculator"
  {
    var base := CounterCalculator(name, calcId, "calculator", false, false, [], "", "");
    x := ApplyOptions(base, options, ApplyCounterCalculatorOption);
    ApplyAllPreserves(base, options, ApplyCounterCalculatorOption,
      (y: CounterCalculator) => y.name == name && y.calculatorId == calcId && y.tag == "calculator");
  }

  datatype CounterAccumulatorOption = CAWithResetExpression(resetExpression: string) | CAWithResetInterval(resetInterval: string)

  function ApplyCounterAccumulatorOption(x: CounterAccumulator, o: CounterAccumulatorOption): (r: CounterAccumulator)
    ensures r.name == x.name && r.tag == x.tag && r.counter == x.counter
    ensures r.resetExpression == (if o.CAWithResetExpression? then o.resetExpression else x.resetExpression)
    ensures r.resetInterval == (if o.CAWithResetInterval? then o.resetInterval else x.resetInterval)
  {
    match o
    case CAWithResetExpression(s) => x.(resetExpression := s)
    case CAWithResetInterval(s) => x.(resetInterval := s)
  }

  method NewCounterAccumulator(name: string, counter: string, options: seq<CounterAccumulatorOption>) returns (x: CounterAccumulator)
    ensures x == ApplyAll(CounterAccumulator(name, "accumulator", counter, "", ""), options, ApplyCounterAccumulatorOption)
    ensures x.name == name && x.tag == "accumulator" && x.counter == counter
  {
    var base := CounterAccumulator(name, "accumulator", counter, "", "");
    x := ApplyOptions(base, options, ApplyCounterAccumulatorOption);
    ApplyAllPreserves(base, options, ApplyCounterAccumulatorOption,
      (y: CounterAccumulator) => y.name == name && y.tag == "accumulator" && y.counter == counter);
  }
}
