/** Calculator selectors: five selector kinds chosen by the `type` tag. A
    selector whose body fails to decode is still returned, partly filled,
    beside the error; the geofence selector decodes its geometry list itself. */
module Selectors {
  import opened Json
  import opened Ordered
  import Geofences

  type Geometry = Geofences.Geometry

  datatype SelectorExpression = SelectorExpression(
    name: string, tag: string, expression: string, invert: bool,
    maxActive: int64, minActive: int64, maxInactive: int64, minDuration: int64, maxMessagesTimeDiff: int64,
    mergeMessageAfter: bool, mergeMessageBefore: bool, methodName: string, validateMessage: string)

  datatype SelectorDatetime = SelectorDatetime(
    name: string, tag: string, split: string, maxMessagesTimeDiff: int64,
    mergeMessageAfter: bool, mergeMessageBefore: bool, validateMessage: string)

  datatype SelectorGeofence = SelectorGeofence(
    name: string, tag: string, geofences: seq<Geometry>,
    maxActive: int64, minActive: int64, maxInactive: int64, minDuration: int64, maxMessagesTimeDiff: int64,
    mergeMessageAfter: bool, mergeMessageBefore: bool, mergeUnknown: bool, validateMessage: string)

  datatype SelectorCalculator = SelectorCalculator(
    calculatorId: int64, tag: string, invert: bool,
    maxActive: int64, minActive: int64, maxInactive: int64, minDuration: int64, maxMessagesTimeDiff: int64,
    validateInterval: string)

  datatype SelectorInactive = SelectorInactive(name: string, tag: string, delayThreshold: int64)

  /** The Selector interface. */
  datatype Selector =
    | Expression(SelectorExpression)
    | Datetime(SelectorDatetime)
    | Geofence(SelectorGeofence)
    | Calculator(SelectorCalculator)
    | Inactive(SelectorInactive)

  /** GetSelectorType: a fixed name per struct, whatever its Type field holds. */
  function GetSelectorType(s: Selector): string
  {
    match s
    case Expression(_) => "expression"
    case Datetime(_) => "datetime"
    case Geofence(_) => "geofence"
    case Calculator(_) => "calculator"
    case Inactive(_) => "inactive"
  }

  function StoredType(s: Selector): string
  {
    match s
    case Expression(x) => x.tag
    case Datetime(x) => x.tag
    case Geofence(x) => x.tag
    case Calculator(x) => x.tag
    case Inactive(x) => x.tag
  }

  const SelectorTags: set<string> := {"expression", "datetime", "geofence", "calculator", "inactive"}

  /** The five tags name five different structs, and each struct reports its own tag. */
  lemma {:induction false} SelectorTypesDistinct(s: Selector, t: Selector)
    ensures GetSelectorType(s) in SelectorTags
    ensures GetSelectorType(s) == GetSelectorType(t) <==>
      (s.Expression? == t.Expression? && s.Datetime? == t.Datetime? && s.Geofence? == t.Geofence? && s.Calculator? == t.Calculator?)
  {
    match s
    case Expression(_) =>
    case Datetime(_) =>
    case Geofence(_) =>
    case Calculator(_) =>
    case Inactive(_) =>
  }

  // ----- decoding the plain selector structs -----

  predicate ExpressionFits(v: Json)
  {
    && StructFits(v) && StrFits(v, "name") && StrFits(v, "type") && StrFits(v, "expression") && FlagFits(v, "invert")
    && IntFits(v, "max_active") && IntFits(v, "min_active") && IntFits(v, "max_inactive") && IntFits(v, "min_duration")
    && IntFits(v, "max_messages_time_diff") && FlagFits(v, "merge_message_after") && FlagFits(v, "merge_message_before")
    && StrFits(v, "method") && StrFits(v, "validate_message")
  }

  function ExpressionFrom(v: Json): SelectorExpression
  {
    SelectorExpression(
      Str(v, "name"), Str(v, "type"), Str(v, "expression"), Flag(v, "invert"),
      Int(v, "max_active"), Int(v, "min_active"), Int(v, "max_inactive"), Int(v, "min_duration"), Int(v, "max_messages_time_diff"),
      Flag(v, "merge_message_after"), Flag(v, "merge_message_before"), Str(v, "method"), Str(v, "validate_message"))
  }

  predicate DatetimeFits(v: Json)
  {
    && StructFits(v) && StrFits(v, "name") && StrFits(v, "type") && StrFits(v, "split") && IntFits(v, "max_messages_time_diff")
    && FlagFits(v, "merge_message_after") && FlagFits(v, "merge_message_before") && StrFits(v, "validate_message")
  }

  function DatetimeFrom(v: Json): SelectorDatetime
  {
    SelectorDatetime(Str(v, "name"), Str(v, "type"), Str(v, "split"), Int(v, "max_messages_time_diff"),
                     Flag(v, "merge_message_after"), Flag(v, "merge_message_before"), Str(v, "validate_message"))
  }

  predicate CalculatorFits(v: Json)
  {
    && StructFits(v) && IntFits(v, "calculator_id") && StrFits(v, "type") && FlagFits(v, "invert")
    && IntFits(v, "max_active") && IntFits(v, "min_active") && IntFits(v, "max_inactive") && IntFits(v, "min_duration")
    && IntFits(v, "max_messages_time_diff") && StrFits(v, "validate_interval")
  }

  function CalculatorFrom(v: Json): SelectorCalculator
  {
    SelectorCalculator(
      Int(v, "calculator_id"), Str(v, "type"), Flag(v, "invert"),
      Int(v, "max_active"), Int(v, "min_active"), Int(v, "max_inactive"), Int(v, "min_duration"), Int(v, "max_messages_time_diff"),
      Str(v, "validate_interval"))
  }

  predicate InactiveFits(v: Json)
  {
    StructFits(v) && StrFits(v, "name") && StrFits(v, "type") && IntFits(v, "delay_threshold")
  }

  function InactiveFrom(v: Json): SelectorInactive
  {
    SelectorInactive(Str(v, "name"), Str(v, "type"), Int(v, "delay_threshold"))
  }

  // ----- SelectorGeofence.UnmarshalJSON -----

  /** The scalar part of the geofence selector's raw struct (its geometries are raw messages). */
  predicate GeofenceRawFits(v: Json)
  {
    && StructFits(v) && StrFits(v, "name") && StrFits(v, "type") && RawListFits(Field(v, "geofences"))
    && IntFits(v, "max_active") && IntFits(v, "min_active") && IntFits(v, "max_inactive") && IntFits(v, "min_duration")
    && IntFits(v, "max_messages_time_diff") && FlagFits(v, "merge_message_after") && FlagFits(v, "merge_message_before")
    && FlagFits(v, "merge_unknown") && StrFits(v, "validate_message")
  }

  /** Every scalar field copied from the raw struct; the geometry list is left as it was. */
  function CopyGeofenceScalars(sg: SelectorGeofence, v: Json): (r: SelectorGeofence)
    ensures r.geofences == sg.geofences
  {
    sg.(name := Str(v, "name"), tag := Str(v, "type"),
        maxActive := Int(v, "max_active"), minActive := Int(v, "min_active"), maxInactive := Int(v, "max_inactive"),
        minDuration := Int(v, "min_duration"), maxMessagesTimeDiff := Int(v, "max_messages_time_diff"),
        mergeMessageAfter := Flag(v, "merge_message_after"), mergeMessageBefore := Flag(v, "merge_message_before"),
        mergeUnknown := Flag(v, "merge_unknown"), validateMessage := Str(v, "validate_message"))
  }

  /** What the receiver holds after SelectorGeofence.UnmarshalJSON and the error
      it returns. */
  function GeofenceDecoded(prior: SelectorGeofence, data: Json): Decoded<SelectorGeofence>
  {
    if !GeofenceRawFits(data) then Decoded(prior, Some(TypeMismatch("SelectorGeofence raw")))
    else
      var d := DecodeEach(RawListFrom(Field(data, "geofences")), Geofences.UnmarshalGeometry);
      Decoded(CopyGeofenceScalars(prior, data).(geofences := prior.geofences + d.value), d.err)
  }

  /** The scalars are copied verbatim; the geometries are decoded in array order
      and appended after those the receiver already held; the first geometry
      that fails stops the loop, and the decode succeeds exactly when every
      geometry decodes. A raw struct that does not fit leaves the receiver as it was. */
  lemma GeofenceDecodedInOrder(prior: SelectorGeofence, data: Json)
    ensures var r := GeofenceDecoded(prior, data);
      && (!GeofenceRawFits(data) ==> r == Decoded(prior, Some(TypeMismatch("SelectorGeofence raw"))))
      && (GeofenceRawFits(data) ==> r.value == CopyGeofenceScalars(prior, data).(geofences := r.value.geofences))
      && |prior.geofences| <= |r.value.geofences| && r.value.geofences[..|prior.geofences|] == prior.geofences
    ensures var r := GeofenceDecoded(prior, data); var raws := RawListFrom(Field(data, "geofences")); var n := |prior.geofences|;
      && |r.value.geofences| - n <= |raws|
      && (forall i :: 0 <= i < |r.value.geofences| - n ==> Geofences.UnmarshalGeometry(raws[i]) == Ok(r.value.geofences[n + i]))
      && (r.err.None? <==> GeofenceRawFits(data) && forall i :: 0 <= i < |raws| ==> Geofences.UnmarshalGeometry(raws[i]).Ok?)
      && (r.err.None? ==> |r.value.geofences| == n + |raws|)
  {
    var raws := RawListFrom(Field(data, "geofences"));
    var d := DecodeEach(raws, Geofences.UnmarshalGeometry);
    DecodeEachSucceedsIff(raws, Geofences.UnmarshalGeometry);
    assert (prior.geofences + d.value)[..|prior.geofences|] == prior.geofences;
  }

  /** The receiver's statements as the source runs them: field copies, then the append loop. */
  method UnmarshalSelectorGeofence(prior: SelectorGeofence, data: Json) returns (sg: SelectorGeofence, err: Option<DecodeError>)
    ensures Decoded(sg, err) == GeofenceDecoded(prior, data)
  {
    sg := prior;
    if !GeofenceRawFits(data) {
      return sg, Some(TypeMismatch("SelectorGeofence raw"));
    }
    sg := CopyGeofenceScalars(sg, data);
    var geofences;
    geofences, err := DecodeAppend(sg.geofences, RawListFrom(Field(data, "geofences")), Geofences.UnmarshalGeometry);
    sg := sg.(geofences := geofences);
  }

  const ZeroSelectorGeofence := SelectorGeofence("", "", [], 0, 0, 0, 0, 0, false, false, false, "")

  // ----- unmarshallSelector and unmarshalSelectors -----

  predicate TypeProbeFits(raw: Json)
  {
    StructFits(raw) && StrFits(raw, "type")
  }

  const TypeProbe := "struct { Type string }"

  /** One plain struct decoded into a fresh value: the partly filled value and the error. */
  function DecodeInto<T>(raw: Json, fits: Json -> bool, from: Json -> T, wrap: T -> Selector, goName: string): (r: Decoded<Option<Selector>>)
    ensures r.value == Some(wrap(from(raw)))
    ensures r.err.None? <==> fits(raw)
    ensures r.err.Some? ==> r.err.value == TypeMismatch(goName)
  {
    Decoded(Some(wrap(from(raw))), if fits(raw) then None else Some(TypeMismatch(goName)))
  }

  /** unmarshallSelector. A known tag always yields a selector of the struct it
      names, partly filled when its body fails to decode; an unknown tag or a
      failed probe yields no selector. */
  function UnmarshallSelector(raw: Json): (r: Decoded<Option<Selector>>)
    ensures !TypeProbeFits(raw) ==> r == Decoded(None, Some(TypeMismatch(TypeProbe)))
    ensures TypeProbeFits(raw) && Str(raw, "type") !in SelectorTags ==> r == Decoded(None, Some(UnknownSelectorType(Str(raw, "type"))))
    ensures r.value.Some? <==> TypeProbeFits(raw) && Str(raw, "type") in SelectorTags
    ensures r.value.Some? ==> GetSelectorType(r.value.value) == Str(raw, "type")
    ensures r.err.None? ==> r.value.Some?
  {
    if !TypeProbeFits(raw) then Decoded(None, Some(TypeMismatch(TypeProbe)))
    else match Str(raw, "type")
      case "expression" => DecodeInto(raw, ExpressionFits, ExpressionFrom, x => Expression(x), "SelectorExpression")
      case "datetime" => DecodeInto(raw, DatetimeFits, DatetimeFrom, x => Datetime(x), "SelectorDatetime")
      case "geofence" =>
        var d := GeofenceDecoded(ZeroSelectorGeofence, raw);
        Decoded(Some(Geofence(d.value)), d.err)
      case "calculator" => DecodeInto(raw, CalculatorFits, CalculatorFrom, x => Calculator(x), "SelectorCalculator")
      case "inactive" => DecodeInto(raw, InactiveFits, InactiveFrom, x => Inactive(x), "SelectorInactive")
      case other => Decoded(None, Some(UnknownSelectorType(other)))
  }

  /** A body that fails to decode still comes back as a partly filled selector:
      the Type field and every well-typed scalar field are set. */
  lemma PartialExpression(raw: Json)
    requires TypeProbeFits(raw) && Str(raw, "type") == "expression" && !ExpressionFits(raw)
    ensures UnmarshallSelector(raw) == Decoded(Some(Expression(ExpressionFrom(raw))), Some(TypeMismatch("SelectorExpression")))
    ensures ExpressionFrom(raw).tag == "expression"
  {
  }

  /** The error and the selector of unmarshallSelector, as the loop of unmarshalSelectors consumes them. */
  function SelectorResult(raw: Json): (r: Result<Selector, DecodeError>)
    ensures r.Ok? <==> UnmarshallSelector(raw).err.None?
    ensures r.Ok? ==> Some(r.value) == UnmarshallSelector(raw).value
    ensures r.Err? ==> Some(r.error) == UnmarshallSelector(raw).err
  {
    var d := UnmarshallSelector(raw);
    if d.err.Some? then Err(d.err.value) else Ok(d.value.value)
  }

  /** unmarshalSelectors: one selector per element in order, or the first
      element's error and no selectors (the partly filled one is dropped). */
  method UnmarshalSelectors(raws: seq<Json>) returns (selectors: seq<Selector>, err: Option<DecodeError>)
    ensures err.None? <==> forall i :: 0 <= i < |raws| ==> UnmarshallSelector(raws[i]).err.None?
    ensures err.None? ==> |selectors| == |raws| && forall i :: 0 <= i < |raws| ==> UnmarshallSelector(raws[i]).value == Some(selectors[i])
    ensures err == DecodeEach(raws, SelectorResult).err
    ensures selectors == if err.None? then DecodeEach(raws, SelectorResult).value else []
    ensures err.Some? ==> exists k :: 0 <= k < |raws| && UnmarshallSelector(raws[k]).err == err &&
                                                     (forall i :: 0 <= i < k ==> UnmarshallSelector(raws[i]).err.None?)
  {
    var done;
    done, err := DecodeAppend([], raws, SelectorResult);
    DecodeEachSucceedsIff(raws, SelectorResult);
    if err.Some? {
      var k := |DecodeEach(raws, SelectorResult).value|;
      assert UnmarshallSelector(raws[k]).err == err;
    }
    selectors := if err.None? then done else [];
  }

  // ----- constructors -----

  /** A caller-written option: any function of the selector. */
  type SelectorOption<!T> = T -> T

  function Run<T>(x: T, o: SelectorOption<T>): T { o(x) }

  method NewSelectorExpression(name: string, expression: string, options: seq<SelectorOption<SelectorExpression>>) returns (x: SelectorExpression)
    ensures var base := SelectorExpression(name, "expression", expression, false, 0, 0, 0, 0, 0, false, false, "", "");
      x == ApplyAll(base, options, Run)
    ensures options == [] ==> x.name == name && x.tag == GetSelectorType(Expression(x)) && x.expression == expression
  {
    x := ApplyOptions(SelectorExpression(name, "expression", expression, false, 0, 0, 0, 0, 0, false, false, "", ""), options, Run);
  }

  method NewSelectorDateOrTime(name: string, options: seq<SelectorOption<SelectorDatetime>>) returns (x: SelectorDatetime)
    ensures x == ApplyAll(SelectorDatetime(name, "datetime", "", 0, false, false, ""), options, Run)
    ensures options == [] ==> x.name == name && x.tag == GetSelectorType(Datetime(x))
  {
    x := ApplyOptions(SelectorDatetime(name, "datetime", "", 0, false, false, ""), options, Run);
  }

  /** The geofence selector's one option, WithGeometry: it appends one geometry. */
  datatype SelectorGeofenceOption = WithGeometry(geometry: Geometry)

  function ApplySelectorGeofenceOption(sg: SelectorGeofence, o: SelectorGeofenceOption): (r: SelectorGeofence)
    ensures |r.geofences| == |sg.geofences| + 1 && r.geofences[..|sg.geofences|] == sg.geofences
    ensures r.geofences[|sg.geofences|] == o.geometry
    ensures r == sg.(geofences := r.geofences)
  {
    sg.(geofences := sg.geofences + [o.geometry])
  }

  method NewSelectorGeofence(name: string, options: seq<SelectorGeofenceOption>) returns (x: SelectorGeofence)
    ensures x == ApplyAll(ZeroSelectorGeofence.(name := name, tag := "geofence"), options, ApplySelectorGeofenceOption)
    ensures x.name == name && x.tag == GetSelectorType(Geofence(x))
    ensures |x.geofences| == |options| && forall i :: 0 <= i < |options| ==> x.geofences[i] == options[i].geometry
  {
    x := ApplyOptions(ZeroSelectorGeofence.(name := name, tag := "geofence"), options, ApplySelectorGeofenceOption);
    WithGeometriesInOrder(ZeroSelectorGeofence.(name := name, tag := "geofence"), options);
  }

  /** Geometry options leave the selector holding the given geometries after
      its own, in option order, with every other field unchanged. */
  lemma {:induction false} WithGeometriesInOrder(sg: SelectorGeofence, options: seq<SelectorGeofenceOption>)
    ensures var r := ApplyAll(sg, options, ApplySelectorGeofenceOption);
      && r == sg.(geofences := r.geofences)
      && |r.geofences| == |sg.geofences| + |options|
      && r.geofences[..|sg.geofences|] == sg.geofences
      && forall i :: 0 <= i < |options| ==> r.geofences[|sg.geofences| + i] == options[i].geometry
    decreases |options|
  {
    if options != [] {
      var next := ApplySelectorGeofenceOption(sg, options[0]);
      WithGeometriesInOrder(next, options[1..]);
      var r := ApplyAll(next, options[1..], ApplySelectorGeofenceOption);
      assert r.geofences[..|next.geofences|][..|sg.geofences|] == r.geofences[..|sg.geofences|];
      forall i | 0 <= i < |options|
        ensures r.geofences[|sg.geofences| + i] == options[i].geometry
      {
        if i > 0 {
          assert options[1..][i - 1] == options[i];
        } else {
          assert r.geofences[..|next.geofences|][|sg.geofences|] == next.geofences[|sg.geofences|];
        }
      }
    }
  }

  method NewSelectorCalculator(calculatorId: int64, options: seq<SelectorOption<SelectorCalculator>>) returns (x: SelectorCalculator)
    ensures x == ApplyAll(SelectorCalculator(calculatorId, "calculator", false, 0, 0, 0, 0, 0, ""), options, Run)
    ensures options == [] ==> x.calculatorId == calculatorId && x.tag == GetSelectorType(Calculator(x))
  {
    x := ApplyOptions(SelectorCalculator(calculatorId, "calculator", false, 0, 0, 0, 0, 0, ""), options, Run);
  }

  function NewSelectorInactive(name: string, delayThreshold: int64): (x: SelectorInactive)
    ensures x.name == name && x.delayThreshold == delayThreshold && x.tag == GetSelectorType(Inactive(x))
  {
    SelectorInactive(name, "inactive", delayThreshold)
  }
}
