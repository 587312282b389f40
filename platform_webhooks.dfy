/** The decoding half of the older, root-level webhook file. It declares the
    same structs as the webhook package and the same unmarshalConfiguration,
    but decodes each webhook in two passes: the static fields first, then the
    configuration in a second json.Unmarshal of the same bytes. */
module PlatformWebhooks {
  import opened Json
  import opened Ordered
  import opened Webhooks

  /** SingleWebhook.UnmarshalJSON, two passes: the static fields are assigned
      after the first pass; the second pass reads the configuration as a raw
      message, which accepts any value. */
  function SingleTwoPass(prior: SingleWebhook, data: Json): Decoded<SingleWebhook>
  {
    if !StaticFits(data) then Decoded(prior, Some(TypeMismatch("SingleWebhook static fields")))
    else
      var w := prior.(id := Int(data, "id"), name := Str(data, "name"), triggers := Triggers(data));
      // The second json.Unmarshal cannot fail once the first has succeeded
      // (StaticFits implies StructFits); this branch mirrors its error check.
      if !StructFits(data) then Decoded(w, Some(TypeMismatch("SingleWebhook raw")))
      else
        var raw := Field(data, "configuration");
        if raw.None? then Decoded(w, Some(EndOfInput))
        else match UnmarshalConfiguration(raw.value)
          case Err(e) => Decoded(w, Some(e))
          case Ok(configuration) => Decoded(w.(configuration := configuration), None)
  }

  /** Splitting the decode in two passes changes nothing for a single
      webhook: the receiver and the error are those of the one-pass decoder
      (up to the wording of the type error). */
  lemma SingleTwoPassAgrees(prior: SingleWebhook, data: Json)
    ensures SingleTwoPass(prior, data).value == SingleWebhookDecoded(prior, data).value
    ensures SingleTwoPass(prior, data).err.None? <==> SingleWebhookDecoded(prior, data).err.None?
    ensures StaticFits(data) ==> SingleTwoPass(prior, data).err == SingleWebhookDecoded(prior, data).err
  {
  }

  /** What the receiver holds after the two-pass ChainedWebhook.UnmarshalJSON. */
  function ChainedTwoPass(prior: ChainedWebhook, data: Json): Decoded<ChainedWebhook>
  {
    if !StaticFits(data) then Decoded(prior, Some(TypeMismatch("ChainedWebhook static fields")))
    else
      var w := prior.(id := Int(data, "id"), name := Str(data, "name"), triggers := Triggers(data));
      if !RawListFits(Field(data, "configuration")) then Decoded(w, Some(TypeMismatch("ChainedWebhook raw")))
      else
        var d := ConfigurationsOf(data);
        Decoded(w.(configuration := prior.configuration + d.value), d.err)
  }

  /** The receiver's statements in source order: first pass, field copies,
      second pass, then the append loop. */
  method UnmarshalChainedTwoPass(prior: ChainedWebhook, data: Json) returns (cw: ChainedWebhook, err: Option<DecodeError>)
    ensures Decoded(cw, err) == ChainedTwoPass(prior, data)
  {
    cw := prior;
    if !StaticFits(data) {
      return cw, Some(TypeMismatch("ChainedWebhook static fields"));
    }
    cw := cw.(id := Int(data, "id"), name := Str(data, "name"), triggers := Triggers(data));
    if !RawListFits(Field(data, "configuration")) {
      return cw, Some(TypeMismatch("ChainedWebhook raw"));
    }
    var configuration;
    configuration, err := DecodeAppend(cw.configuration, RawListFrom(Field(data, "configuration")), UnmarshalConfiguration);
    cw := cw.(configuration := configuration);
  }

  /** The two chained decoders fail on the same inputs and agree whenever the
      configuration is a list; when it is not, the two-pass one has already
      overwritten id, name and triggers, the one-pass one has not. */
  lemma ChainedTwoPassCompared(prior: ChainedWebhook, data: Json)
    ensures ChainedTwoPass(prior, data).err.None? <==> ChainedWebhookDecoded(prior, data).err.None?
    ensures RawListFits(Field(data, "configuration")) ==>
      ChainedTwoPass(prior, data).value == ChainedWebhookDecoded(prior, data).value
    ensures StaticFits(data) && !RawListFits(Field(data, "configuration")) ==>
      && ChainedWebhookDecoded(prior, data).value == prior
      && ChainedTwoPass(prior, data).value == prior.(id := Int(data, "id"), name := Str(data, "name"), triggers := Triggers(data))
  {
  }

  /** unmarshalWebhook of the root file: single first, then chained, then the
      chained attempt's error. */
  function UnmarshalWebhookTwoPass(raw: Json): (r: Result<Webhook, DecodeError>)
    ensures SingleTwoPass(ZeroSingle, raw).err.None? ==> r == Ok(Single(SingleTwoPass(ZeroSingle, raw).value))
    ensures r.Err? <==> SingleTwoPass(ZeroSingle, raw).err.Some? && ChainedTwoPass(ZeroChained, raw).err.Some?
    ensures r.Err? ==> Some(r.error) == ChainedTwoPass(ZeroChained, raw).err
  {
    var single := SingleTwoPass(ZeroSingle, raw);
    if single.err.None? then Ok(Single(single.value))
    else
      var chained := ChainedTwoPass(ZeroChained, raw);
      if chained.err.None? then Ok(Chained(chained.value)) else Err(chained.err.value)
  }

  /** Decoding into fresh values hides every difference between the two
      files: both decide single or chained the same way and build the same
      webhook, and fail on the same inputs. */
  lemma WebhookVersionsAgree(raw: Json)
    ensures UnmarshalWebhookTwoPass(raw).Ok? <==> UnmarshalWebhook(raw).Ok?
    ensures UnmarshalWebhookTwoPass(raw).Ok? ==> UnmarshalWebhookTwoPass(raw) == UnmarshalWebhook(raw)
  {
    SingleTwoPassAgrees(ZeroSingle, raw);
    ChainedTwoPassCompared(ZeroChained, raw);
  }

  /** The `{ "result": [...] }` envelope. */
  predicate EnvelopeFits(data: Json)
  {
    StructFits(data) && RawListFits(Field(data, "result"))
  }

  /** unmarshalWebhookResponse of the root file: the envelope, then one
      webhook per element in order, or the first failure and no webhooks. */
  method UnmarshalWebhookResponseTwoPass(data: Json) returns (webhooks: seq<Webhook>, err: Option<DecodeError>)
    ensures !EnvelopeFits(data) ==> webhooks == [] && err == Some(TypeMismatch("webhook response"))
    ensures EnvelopeFits(data) ==>
      var raws := RawListFrom(Field(data, "result"));
      && err == DecodeEach(raws, UnmarshalWebhookTwoPass).err
      && (err.None? <==> forall i :: 0 <= i < |raws| ==> UnmarshalWebhookTwoPass(raws[i]).Ok?)
      && (err.None? ==> |webhooks| == |raws| && forall i :: 0 <= i < |raws| ==> UnmarshalWebhookTwoPass(raws[i]) == Ok(webhooks[i]))
      && (err.Some? ==> webhooks == [])
  {
    if !EnvelopeFits(data) {
      return [], Some(TypeMismatch("webhook response"));
    }
    var raws := RawListFrom(Field(data, "result"));
    var done;
    done, err := DecodeAppend([], raws, UnmarshalWebhookTwoPass);
    DecodeEachSucceedsIff(raws, UnmarshalWebhookTwoPass);
    webhooks := if err.None? then done else [];
  }
}
