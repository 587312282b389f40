/** Platform webhooks: a webhook is either single (one configuration) or
    chained (a list of configurations), and is told apart only by trying to
    decode it as a single webhook first. A configuration is chosen by its
    `type` tag, and an unknown tag gives no configuration and no error. */
module Webhooks {
  import opened Json
  import opened Ordered

  const ActionBreak := "break"
  const ActionSkip := "skip"
  const ActionRetry := "retry"

  datatype Header = Header(name: string, value: string)

  datatype Validator = Validator(expression: string, action: string)

  datatype CustomServerConfiguration = CustomServerConfiguration(
    tag: string, uri: string, methodName: string, body: string,
    ca: Option<string>, headers: seq<Header>, validate: Option<Validator>)

  datatype FlespiConfiguration = FlespiConfiguration(
    tag: string, uri: string, methodName: string, body: string, cid: string, validate: Option<Validator>)

  /** The Configuration interface. */
  datatype Configuration =
    | CustomServer(CustomServerConfiguration)
    | FlespiPlatform(FlespiConfiguration)

  datatype TriggerFilter = TriggerFilter(cid: int64, payload: string)

  datatype Trigger = Trigger(topic: string, filter: Option<TriggerFilter>)

  /** `configuration` is None for a nil Configuration. */
  datatype SingleWebhook = SingleWebhook(id: int64, name: string, triggers: seq<Trigger>, configuration: Option<Configuration>)

  /** Each element of `configuration` may be nil: an unknown tag is appended as nil. */
  datatype ChainedWebhook = ChainedWebhook(id: int64, name: string, triggers: seq<Trigger>, configuration: seq<Option<Configuration>>)

  /** The Webhook interface. */
  datatype Webhook = Single(single: SingleWebhook) | Chained(chained: ChainedWebhook)

  /** GetId: the stored id of either kind. */
  function GetId(w: Webhook): (id: int64)
    ensures w.Single? ==> id == w.single.id
    ensures w.Chained? ==> id == w.chained.id
  {
    match w
    case Single(s) => s.id
    case Chained(c) => c.id
  }

  // ----- decoding the plain structs -----

  predicate HeaderFits(v: Json) { StructFits(v) && StrFits(v, "name") && StrFits(v, "value") }

  function HeaderFrom(v: Json): Header { Header(Str(v, "name"), Str(v, "value")) }

  predicate ValidatorFits(v: Json) { StructFits(v) && StrFits(v, "expression") && StrFits(v, "action") }

  function ValidatorFrom(v: Json): Validator { Validator(Str(v, "expression"), Str(v, "action")) }

  predicate CustomServerFits(v: Json)
  {
    && StructFits(v) && StrFits(v, "type") && StrFits(v, "uri") && StrFits(v, "method") && StrFits(v, "body")
    && PointerFits(Field(v, "ca"), StringValueFits) && ListFits(Field(v, "headers"), HeaderFits)
    && PointerFits(Field(v, "validate"), ValidatorFits)
  }

  function CustomServerFrom(v: Json): CustomServerConfiguration
  {
    CustomServerConfiguration(Str(v, "type"), Str(v, "uri"), Str(v, "method"), Str(v, "body"),
                              PointerFrom(Field(v, "ca"), StringValueFrom), ListFrom(Field(v, "headers"), HeaderFrom),
                              PointerFrom(Field(v, "validate"), ValidatorFrom))
  }

  predicate FlespiFits(v: Json)
  {
    && StructFits(v) && StrFits(v, "type") && StrFits(v, "uri") && StrFits(v, "method") && StrFits(v, "body")
    && StrFits(v, "cid") && PointerFits(Field(v, "validate"), ValidatorFits)
  }

  function FlespiFrom(v: Json): FlespiConfiguration
  {
    FlespiConfiguration(Str(v, "type"), Str(v, "uri"), Str(v, "method"), Str(v, "body"), Str(v, "cid"),
                        PointerFrom(Field(v, "validate"), ValidatorFrom))
  }

  predicate TriggerFilterFits(v: Json) { StructFits(v) && IntFits(v, "cid") && StrFits(v, "payload") }

  function TriggerFilterFrom(v: Json): TriggerFilter { TriggerFilter(Int(v, "cid"), Str(v, "payload")) }

  predicate TriggerFits(v: Json) { StructFits(v) && StrFits(v, "topic") && PointerFits(Field(v, "filter"), TriggerFilterFits) }

  function TriggerFrom(v: Json): Trigger { Trigger(Str(v, "topic"), PointerFrom(Field(v, "filter"), TriggerFilterFrom)) }

  // ----- unmarshalConfiguration -----

  predicate TagProbeFits(raw: Json)
  {
    StructFits(raw) && StrFits(raw, "type")
  }

  const TagProbe := "struct { Type string }"

  /** unmarshalConfiguration: the tag probe, then the struct the tag names;
      a tag it does not know gives no configuration and no error. */
  function UnmarshalConfiguration(raw: Json): (r: Result<Option<Configuration>, DecodeError>)
    ensures !TagProbeFits(raw) ==> r == Err(TypeMismatch(TagProbe))
    ensures TagProbeFits(raw) && Str(raw, "type") == "custom-server" ==>
      r == if CustomServerFits(raw) then Ok(Some(CustomServer(CustomServerFrom(raw)))) else Err(TypeMismatch("CustomServerConfiguration"))
    ensures TagProbeFits(raw) && Str(raw, "type") == "flespi-platform" ==>
      r == if FlespiFits(raw) then Ok(Some(FlespiPlatform(FlespiFrom(raw)))) else Err(TypeMismatch("FlespiConfiguration"))
    ensures r == Ok(None) <==> TagProbeFits(raw) && Str(raw, "type") !in {"custom-server", "flespi-platform"}
  {
    if !TagProbeFits(raw) then Err(TypeMismatch(TagProbe))
    else match Str(raw, "type")
      case "custom-server" =>
        if CustomServerFits(raw) then Ok(Some(CustomServer(CustomServerFrom(raw)))) else Err(TypeMismatch("CustomServerConfiguration"))
      case "flespi-platform" =>
        if FlespiFits(raw) then Ok(Some(FlespiPlatform(FlespiFrom(raw)))) else Err(TypeMismatch("FlespiConfiguration"))
      case _ => Ok(None)
  }

  /** A configuration that is neither an object nor null fails at the tag probe. */
  lemma NonObjectConfigurationFails(raw: Json)
    requires !raw.JObject? && !raw.JNull?
    ensures UnmarshalConfiguration(raw) == Err(TypeMismatch(TagProbe))
  {
  }

  /** An object without a `type` key, and null, decode to no configuration. */
  lemma UntaggedConfigurationIsNil(raw: Json)
    requires raw.JNull? || (raw.JObject? && "type" !in raw.fields)
    ensures UnmarshalConfiguration(raw) == Ok(None)
  {
  }

  // ----- encoding the configurations -----

  function EncodeHeader(h: Header): Json
  {
    JObject(map["name" := JString(h.name), "value" := JString(h.value)])
  }

  function EncodeValidator(v: Validator): Json
  {
    JObject(map["expression" := JString(v.expression), "action" := JString(v.action)])
  }

  function EncodeOptional<T>(x: Option<T>, enc: T -> Json): Json
  {
    if x.None? then JNull else enc(x.value)
  }

  function EncodeCustomServer(c: CustomServerConfiguration): Json
  {
    var m := map["type" := JString(c.tag), "uri" := JString(c.uri), "method" := JString(c.methodName), "body" := JString(c.body)];
    var m1 := m["headers" := EncodeList(c.headers, EncodeHeader)];
    JObject(PutIf(PutIf(m1, c.ca.Some?, "ca", EncodeOptional(c.ca, EncodeStr)), c.validate.Some?, "validate", EncodeOptional(c.validate, EncodeValidator)))
  }

  function EncodeFlespi(c: FlespiConfiguration): Json
  {
    JObject(map["type" := JString(c.tag), "uri" := JString(c.uri), "method" := JString(c.methodName), "body" := JString(c.body),
                "cid" := JString(c.cid), "validate" := EncodeOptional(c.validate, EncodeValidator)])
  }

  function EncodeConfiguration(c: Configuration): Json
  {
    match c
    case CustomServer(x) => EncodeCustomServer(x)
    case FlespiPlatform(x) => EncodeFlespi(x)
  }

  /** The tag a configuration must carry to be decoded as its own kind. */
  function ConfigurationTag(c: Configuration): string
  {
    match c
    case CustomServer(_) => "custom-server"
    case FlespiPlatform(_) => "flespi-platform"
  }

  function StoredTag(c: Configuration): string
  {
    match c
    case CustomServer(x) => x.tag
    case FlespiPlatform(x) => x.tag
  }

  lemma CustomServerKeys(c: CustomServerConfiguration)
    ensures var v := EncodeCustomServer(c);
      && Field(v, "type") == Some(JString(c.tag)) && Field(v, "uri") == Some(JString(c.uri))
      && Field(v, "method") == Some(JString(c.methodName)) && Field(v, "body") == Some(JString(c.body))
      && Field(v, "headers") == Some(EncodeList(c.headers, EncodeHeader))
      && Field(v, "ca") == (if c.ca.Some? then Some(JString(c.ca.value)) else None)
      && Field(v, "validate") == (if c.validate.Some? then Some(EncodeValidator(c.validate.value)) else None)
  {
  }

  lemma CustomServerFields(c: CustomServerConfiguration)
    ensures CustomServerFits(EncodeCustomServer(c)) && CustomServerFrom(EncodeCustomServer(c)) == c
  {
    CustomServerKeys(c);
    forall h | h in c.headers ensures HeaderFits(EncodeHeader(h)) && HeaderFrom(EncodeHeader(h)) == h {
    }
    ListRoundTrip(c.headers, EncodeHeader, HeaderFits, HeaderFrom);
  }

  lemma FlespiFields(c: FlespiConfiguration)
    ensures FlespiFits(EncodeFlespi(c)) && FlespiFrom(EncodeFlespi(c)) == c
  {
  }

  /** A configuration whose stored tag names its own kind survives encoding
      and decoding unchanged. */
  lemma ConfigurationRoundTrip(c: Configuration)
    requires StoredTag(c) == ConfigurationTag(c)
    ensures UnmarshalConfiguration(EncodeConfiguration(c)) == Ok(Some(c))
  {
    match c
    case CustomServer(x) =>
      CustomServerFields(x);
    case FlespiPlatform(x) =>
      FlespiFields(x);
  }

  // ----- SingleWebhook.UnmarshalJSON and ChainedWebhook.UnmarshalJSON -----

  /** The fields both webhook kinds share. */
  predicate StaticFits(v: Json)
  {
    StructFits(v) && IntFits(v, "id") && StrFits(v, "name") && ListFits(Field(v, "triggers"), TriggerFits)
  }

  function Triggers(v: Json): seq<Trigger>
  {
    ListFrom(Field(v, "triggers"), TriggerFrom)
  }

  /** SingleWebhook.UnmarshalJSON on a receiver holding `prior`: id, name and
      triggers are copied, then the configuration is decoded; an absent
      configuration is an empty raw message and fails. */
  function SingleWebhookDecoded(prior: SingleWebhook, data: Json): (r: Decoded<SingleWebhook>)
    ensures !StaticFits(data) ==> r == Decoded(prior, Some(TypeMismatch("SingleWebhook raw")))
    ensures StaticFits(data) ==>
      r.value.id == Int(data, "id") && r.value.name == Str(data, "name") && r.value.triggers == Triggers(data)
    ensures r.err.None? <==>
      StaticFits(data) && Field(data, "configuration").Some? && UnmarshalConfiguration(Field(data, "configuration").value).Ok?
    ensures r.err.None? ==> r.value.configuration == UnmarshalConfiguration(Field(data, "configuration").value).value
    ensures r.err.Some? ==> r.value.configuration == prior.configuration
  {
    if !StaticFits(data) then Decoded(prior, Some(TypeMismatch("SingleWebhook raw")))
    else
      var w := prior.(id := Int(data, "id"), name := Str(data, "name"), triggers := Triggers(data));
      var raw := Field(data, "configuration");
      if raw.None? then Decoded(w, Some(EndOfInput))
      else match UnmarshalConfiguration(raw.value)
        case Err(e) => Decoded(w, Some(e))
        case Ok(configuration) => Decoded(w.(configuration := configuration), None)
  }

  predicate ChainedRawFits(v: Json)
  {
    StaticFits(v) && RawListFits(Field(v, "configuration"))
  }

  function ConfigurationsOf(data: Json): Decoded<seq<Option<Configuration>>>
  {
    DecodeEach(RawListFrom(Field(data, "configuration")), UnmarshalConfiguration)
  }

  /** What the receiver holds after ChainedWebhook.UnmarshalJSON, and the error. */
  function ChainedWebhookDecoded(prior: ChainedWebhook, data: Json): Decoded<ChainedWebhook>
  {
    if !ChainedRawFits(data) then Decoded(prior, Some(TypeMismatch("ChainedWebhook raw")))
    else
      var d := ConfigurationsOf(data);
      Decoded(prior.(id := Int(data, "id"), name := Str(data, "name"), triggers := Triggers(data),
                     configuration := prior.configuration + d.value), d.err)
  }

  /** The receiver's statements as the source runs them: field copies, then the append loop. */
  method UnmarshalChainedWebhook(prior: ChainedWebhook, data: Json) returns (cw: ChainedWebhook, err: Option<DecodeError>)
    ensures Decoded(cw, err) == ChainedWebhookDecoded(prior, data)
  {
    cw := prior;
    if !ChainedRawFits(data) {
      return cw, Some(TypeMismatch("ChainedWebhook raw"));
    }
    cw := cw.(id := Int(data, "id"), name := Str(data, "name"), triggers := Triggers(data));
    var configuration;
    configuration, err := DecodeAppend(cw.configuration, RawListFrom(Field(data, "configuration")), UnmarshalConfiguration);
    cw := cw.(configuration := configuration);
  }

  /** Configurations are decoded in array order and appended after those the
      receiver held; the first failure stops the loop; the decode succeeds
      exactly when every element decodes. */
  lemma ChainedDecodedInOrder(prior: ChainedWebhook, data: Json)
    requires ChainedRawFits(data)
    ensures var r := ChainedWebhookDecoded(prior, data); var raws := RawListFrom(Field(data, "configuration"));
      var n := |prior.configuration|;
      && r.value.id == Int(data, "id") && r.value.name == Str(data, "name") && r.value.triggers == Triggers(data)
      && n <= |r.value.configuration| <= n + |raws| && r.value.configuration[..n] == prior.configuration
      && (forall i :: 0 <= i < |r.value.configuration| - n ==> UnmarshalConfiguration(raws[i]) == Ok(r.value.configuration[n + i]))
      && (r.err.None? <==> forall i :: 0 <= i < |raws| ==> UnmarshalConfiguration(raws[i]).Ok?)
      && (r.err.None? ==> |r.value.configuration| == n + |raws|)
  {
    var raws := RawListFrom(Field(data, "configuration"));
    var d := DecodeEach(raws, UnmarshalConfiguration);
    DecodeEachSucceedsIff(raws, UnmarshalConfiguration);
    assert (prior.configuration + d.value)[..|prior.configuration|] == prior.configuration;
  }

  /** A configuration object is not a list: the chained decode rejects it
      before touching the receiver. */
  lemma ChainedRejectsObjectConfiguration(prior: ChainedWebhook, data: Json)
    requires Field(data, "configuration").Some? && Field(data, "configuration").value.JObject?
    ensures ChainedWebhookDecoded(prior, data) == Decoded(prior, Some(TypeMismatch("ChainedWebhook raw")))
  {
  }

  // ----- unmarshalWebhook and unmarshalWebhookResponse -----

  const ZeroSingle := SingleWebhook(0, "", [], None)

  const ZeroChained := ChainedWebhook(0, "", [], [])

  /** unmarshalWebhook: a single webhook whenever that decode succeeds, else a
      chained one, else the chained attempt's error. */
  function UnmarshalWebhook(raw: Json): (r: Result<Webhook, DecodeError>)
    ensures SingleWebhookDecoded(ZeroSingle, raw).err.None? ==> r == Ok(Single(SingleWebhookDecoded(ZeroSingle, raw).value))
    ensures r.Ok? && r.value.Chained? ==>
      SingleWebhookDecoded(ZeroSingle, raw).err.Some? && r.value.chained == ChainedWebhookDecoded(ZeroChained, raw).value
    ensures r.Err? <==> SingleWebhookDecoded(ZeroSingle, raw).err.Some? && ChainedWebhookDecoded(ZeroChained, raw).err.Some?
    ensures r.Err? ==> Some(r.error) == ChainedWebhookDecoded(ZeroChained, raw).err
  {
    var single := SingleWebhookDecoded(ZeroSingle, raw);
    if single.err.None? then Ok(Single(single.value))
    else
      var chained := ChainedWebhookDecoded(ZeroChained, raw);
      if chained.err.None? then Ok(Chained(chained.value)) else Err(chained.err.value)
  }

  /** An object-valued configuration that decodes makes a single webhook. */
  lemma ObjectConfigurationIsSingle(raw: Json)
    requires StaticFits(raw) && Field(raw, "configuration").Some? && Field(raw, "configuration").value.JObject?
    requires UnmarshalConfiguration(Field(raw, "configuration").value).Ok?
    ensures UnmarshalWebhook(raw).Ok? && UnmarshalWebhook(raw).value.Single?
  {
  }

  /** An array-valued configuration fails the single attempt at its tag probe,
      so the result is whatever the chained attempt gives. */
  lemma ArrayConfigurationIsChained(raw: Json)
    requires Field(raw, "configuration").Some? && Field(raw, "configuration").value.JArray?
    ensures SingleWebhookDecoded(ZeroSingle, raw).err.Some?
    ensures UnmarshalWebhook(raw) ==
      (var c := ChainedWebhookDecoded(ZeroChained, raw); if c.err.None? then Ok(Chained(c.value)) else Err(c.err.value))
  {
  }

  /** A webhook without a configuration fails the single attempt on empty
      input and comes back as a chained webhook with no configurations. */
  lemma MissingConfigurationIsChained(raw: Json)
    requires raw.JObject? && "configuration" !in raw.fields && StaticFits(raw)
    ensures UnmarshalWebhook(raw) == Ok(Chained(ChainedWebhook(Int(raw, "id"), Str(raw, "name"), Triggers(raw), [])))
  {
    assert SingleWebhookDecoded(ZeroSingle, raw).err == Some(EndOfInput);
    assert RawListFrom(Field(raw, "configuration")) == [];
    assert ConfigurationsOf(raw) == Decoded([], None);
    assert ChainedRawFits(raw);
    assert ChainedWebhookDecoded(ZeroChained, raw).value.configuration == [];
    assert ChainedWebhookDecoded(ZeroChained, raw).err == None;
  }

  /** unmarshalWebhookResponse: one webhook per element in order, or the
      first element's error and no webhooks. */
  method UnmarshalWebhookResponse(raws: seq<Json>) returns (webhooks: seq<Webhook>, err: Option<DecodeError>)
    ensures err == DecodeEach(raws, UnmarshalWebhook).err
    ensures webhooks == if err.None? then DecodeEach(raws, UnmarshalWebhook).value else []
    ensures err.None? <==> forall i :: 0 <= i < |raws| ==> UnmarshalWebhook(raws[i]).Ok?
    ensures err.None? ==> |webhooks| == |raws| && forall i :: 0 <= i < |raws| ==> UnmarshalWebhook(raws[i]) == Ok(webhooks[i])
  {
    var done;
    done, err := DecodeAppend([], raws, UnmarshalWebhook);
    DecodeEachSucceedsIff(raws, UnmarshalWebhook);
    webhooks := if err.None? then done else [];
  }

  // ----- the option closures -----

  datatype SingleWebhookOption =
    | SWWithTrigger(trigger: Trigger)
    | SWWithTriggers(triggers: seq<Trigger>)
    | SWWithConfiguration(configuration: Option<Configuration>)

  function ApplySingleWebhookOption(w: SingleWebhook, o: SingleWebhookOption): (r: SingleWebhook)
    ensures r.id == w.id && r.name == w.name
    ensures r.triggers == match o
      case SWWithTrigger(t) => w.triggers + [t]
      case SWWithTriggers(ts) => ts
      case _ => w.triggers
    ensures r.configuration == if o.SWWithConfiguration? then o.configuration else w.configuration
  {
    match o
    case SWWithTrigger(t) => w.(triggers := w.triggers + [t])
    case SWWithTriggers(ts) => w.(triggers := ts)
    case SWWithConfiguration(c) => w.(configuration := c)
  }

  datatype ChainedWebhookOption =
    | CWWithTrigger(trigger: Trigger)
    | CWWithTriggers(triggers: seq<Trigger>)
    | CWWithConfiguration(configuration: Option<Configuration>)
    | CWWithConfigurations(configurations: seq<Option<Configuration>>)

  function ApplyChainedWebhookOption(w: ChainedWebhook, o: ChainedWebhookOption): (r: ChainedWebhook)
    ensures r.id == w.id && r.name == w.name
    ensures r.triggers == match o
      case CWWithTrigger(t) => w.triggers + [t]
      case CWWithTriggers(ts) => ts
      case _ => w.triggers
    ensures r.configuration == match o
      case CWWithConfiguration(c) => w.configuration + [c]
      case CWWithConfigurations(cs) => cs
      case _ => w.configuration
  {
    match o
    case CWWithTrigger(t) => w.(triggers := w.triggers + [t])
    case CWWithTriggers(ts) => w.(triggers := ts)
    case CWWithConfiguration(c) => w.(configuration := w.configuration + [c])
    case CWWithConfigurations(cs) => w.(configuration := cs)
  }

  /** The configurations one option appends. */
  function AddedBy(o: ChainedWebhookOption): seq<Option<Configuration>>
  {
    if o.CWWithConfiguration? then [o.configuration] else []
  }

  /** The configurations a list of options appends, in option order. */
  function AppendedConfigurations(opts: seq<ChainedWebhookOption>): seq<Option<Configuration>>
  {
    if opts == [] then [] else AddedBy(opts[0]) + AppendedConfigurations(opts[1..])
  }

  predicate NoReplacement(opts: seq<ChainedWebhookOption>)
  {
    forall i :: 0 <= i < |opts| ==> !opts[i].CWWithConfigurations?
  }

  lemma NoReplacementInTail(opts: seq<ChainedWebhookOption>)
    requires opts != [] && NoReplacement(opts)
    ensures !opts[0].CWWithConfigurations? && NoReplacement(opts[1..])
  {
    forall i | 0 <= i < |opts| - 1
      ensures !opts[1..][i].CWWithConfigurations?
    {
      assert opts[1..][i] == opts[i + 1];
    }
  }

  lemma AppendsWhatItAdds(w: ChainedWebhook, o: ChainedWebhookOption, rest: seq<Option<Configuration>>)
    requires !o.CWWithConfigurations?
    ensures ApplyChainedWebhookOption(w, o).configuration + rest == w.configuration + (AddedBy(o) + rest)
  {
    if o.CWWithConfiguration? {
      assert (w.configuration + [o.configuration]) + rest == w.configuration + ([o.configuration] + rest);
    }
  }

  /** Without a CWWithConfigurations option, the configurations end up as the
      earlier ones followed by the appended ones, in option order. */
  lemma {:induction false} ChainedOptionsAppendInOrder(w: ChainedWebhook, opts: seq<ChainedWebhookOption>)
    requires NoReplacement(opts)
    ensures ApplyAll(w, opts, ApplyChainedWebhookOption).configuration == w.configuration + AppendedConfigurations(opts)
    decreases |opts|
  {
    if opts != [] {
      NoReplacementInTail(opts);
      var next := ApplyChainedWebhookOption(w, opts[0]);
      ChainedOptionsAppendInOrder(next, opts[1..]);
      AppendsWhatItAdds(w, opts[0], AppendedConfigurations(opts[1..]));
    }
  }

  /** The last CWWithConfigurations option discards every configuration given
      before it; only those appended after it follow its list. */
  lemma LastReplacementWins(w: ChainedWebhook, opts: seq<ChainedWebhookOption>, k: nat)
    requires k < |opts| && opts[k].CWWithConfigurations?
    requires forall i :: k < i < |opts| ==> !opts[i].CWWithConfigurations?
    ensures ApplyAll(w, opts, ApplyChainedWebhookOption).configuration == opts[k].configurations + AppendedConfigurations(opts[k + 1..])
  {
    var after := opts[k + 1..];
    forall i | 0 <= i < |after|
      ensures !after[i].CWWithConfigurations?
    {
      assert after[i] == opts[k + 1 + i];
    }
    assert opts == opts[..k] + ([opts[k]] + opts[k + 1..]);
    ApplyAllAppend(w, opts[..k], [opts[k]] + opts[k + 1..], ApplyChainedWebhookOption);
    var before := ApplyAll(w, opts[..k], ApplyChainedWebhookOption);
    assert ([opts[k]] + opts[k + 1..])[0] == opts[k];
    assert ([opts[k]] + opts[k + 1..])[1..] == opts[k + 1..];
    var replaced := ApplyChainedWebhookOption(before, opts[k]);
    assert ApplyAll(before, [opts[k]] + opts[k + 1..], ApplyChainedWebhookOption) == ApplyAll(replaced, opts[k + 1..], ApplyChainedWebhookOption);
    ChainedOptionsAppendInOrder(replaced, opts[k + 1..]);
  }

  /** The local construction in NewSignleWebhook and NewChainedWebhook: the
      name, then the options in order (the API request that follows is not
      part of this model). */
  method BuildSingleWebhook(name: string, options: seq<SingleWebhookOption>) returns (w: SingleWebhook)
    ensures w == ApplyAll(ZeroSingle.(name := name), options, ApplySingleWebhookOption)
    ensures w.name == name && w.id == 0
  {
    w := ApplyOptions(ZeroSingle.(name := name), options, ApplySingleWebhookOption);
    ApplyAllPreserves(ZeroSingle.(name := name), options, ApplySingleWebhookOption, (x: SingleWebhook) => x.name == name && x.id == 0);
  }

  method BuildChainedWebhook(name: string, options: seq<ChainedWebhookOption>) returns (w: ChainedWebhook)
    ensures w == ApplyAll(ZeroChained.(name := name), options, ApplyChainedWebhookOption)
    ensures w.name == name && w.id == 0
  {
    w := ApplyOptions(ZeroChained.(name := name), options, ApplyChainedWebhookOption);
    ApplyAllPreserves(ZeroChained.(name := name), options, ApplyChainedWebhookOption, (x: ChainedWebhook) => x.name == name && x.id == 0);
  }
}
