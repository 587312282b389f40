/** The two loops every decoder and constructor of the client shares: decoding
    a JSON array element by element in array order, stopping at the first
    element that fails, and applying functional options left to right. */
module Ordered {
  import opened Json

  /** Decodes `raws` in order with `dec`; the value is the decoded prefix that
      precedes the first failing element, the error is that element's error. */
  function DecodeEach<T>(raws: seq<Json>, dec: Json -> Result<T, DecodeError>): (r: Decoded<seq<T>>)
    ensures |r.value| <= |raws|
    ensures forall i :: 0 <= i < |r.value| ==> dec(raws[i]) == Ok(r.value[i])
    ensures r.err.None? ==> |r.value| == |raws|
    ensures r.err.Some? ==> |r.value| < |raws| && dec(raws[|r.value|]) == Err(r.err.value)
  {
    if raws == [] then Decoded([], None)
    else match dec(raws[0])
      case Err(e) => Decoded([], Some(e))
      case Ok(x) =>
        var rest := DecodeEach(raws[1..], dec);
        Decoded([x] + rest.value, rest.err)
  }

  /** The whole array decodes exactly when every element does. */
  lemma DecodeEachSucceedsIff<T>(raws: seq<Json>, dec: Json -> Result<T, DecodeError>)
    ensures DecodeEach(raws, dec).err.None? <==> forall i :: 0 <= i < |raws| ==> dec(raws[i]).Ok?
  {
    var r := DecodeEach(raws, dec);
    if r.err.Some? {
      assert !dec(raws[|r.value|]).Ok?;
    }
  }

  /** The reported error is the first failing element's: every earlier element decodes. */
  lemma DecodeEachFirstError<T>(raws: seq<Json>, dec: Json -> Result<T, DecodeError>, k: nat)
    requires k < |raws| && dec(raws[k]).Err?
    requires forall i :: 0 <= i < k ==> dec(raws[i]).Ok?
    ensures |DecodeEach(raws, dec).value| == k
    ensures DecodeEach(raws, dec).err == Some(dec(raws[k]).error)
  {
  }

  /** Concatenated input: the first part is decoded first, and the second part
      only when the first part decoded completely. */
  lemma {:induction false} DecodeEachAppend<T>(a: seq<Json>, b: seq<Json>, dec: Json -> Result<T, DecodeError>)
    ensures DecodeEach(a + b, dec) ==
      (var ra := DecodeEach(a, dec);
       if ra.err.Some? then ra
       else var rb := DecodeEach(b, dec); Decoded(ra.value + rb.value, rb.err))
  {
    if a == [] {
      assert a + b == b;
      var rb := DecodeEach(b, dec);
      assert [] + rb.value == rb.value;
    } else {
      assert (a + b)[0] == a[0];
      assert (a + b)[1..] == a[1..] + b;
      DecodeEachAppend(a[1..], b, dec);
      match dec(a[0])
      case Err(e) =>
      case Ok(x) =>
        var rest := DecodeEach(a[1..], dec);
        if rest.err.None? {
          var rb := DecodeEach(b, dec);
          assert [x] + (rest.value + rb.value) == ([x] + rest.value) + rb.value;
        }
    }
  }

  /** The `for _, raw := range raws { x, err := dec(raw); if err != nil { return err };
      acc = append(acc, x) }` loop of unmarshalCounters, unmarshalSelectors,
      SelectorGeofence.UnmarshalJSON, ChainedWebhook.UnmarshalJSON and
      unmarshalWebhookResponse: the decoded elements are appended to `acc`. */
  method DecodeAppend<T>(acc: seq<T>, raws: seq<Json>, dec: Json -> Result<T, DecodeError>) returns (done: seq<T>, err: Option<DecodeError>)
    ensures var d := DecodeEach(raws, dec); done == acc + d.value && err == d.err
  {
    ghost var d := DecodeEach(raws, dec);
    done, err := acc, None;
    var i := 0;
    while i < |raws|
      invariant i <= |d.value|
      invariant done == acc + d.value[..i]
    {
      match dec(raws[i])
      case Err(e) =>
        assert i == |d.value|;
        assert d.value[..i] == d.value;
        err := Some(e);
        return;
      case Ok(x) =>
        assert d.value[..i + 1] == d.value[..i] + [x];
        done := done + [x];
      i := i + 1;
    }
    assert d.value[..i] == d.value;
  }

  /** Applying options left to right: `opts[0]` first. */
  function ApplyAll<T, O>(x: T, opts: seq<O>, apply: (T, O) -> T): T
  {
    if opts == [] then x else ApplyAll(apply(x, opts[0]), opts[1..], apply)
  }

  /** Options given in two groups act as the first group followed by the second. */
  lemma {:induction false} ApplyAllAppend<T, O>(x: T, a: seq<O>, b: seq<O>, apply: (T, O) -> T)
    ensures ApplyAll(x, a + b, apply) == ApplyAll(ApplyAll(x, a, apply), b, apply)
  {
    if a == [] {
      assert a + b == b;
    } else {
      assert (a + b)[0] == a[0];
      assert (a + b)[1..] == a[1..] + b;
      ApplyAllAppend(apply(x, a[0]), a[1..], b, apply);
    }
  }

  /** A property that every option keeps holds after any list of options. */
  lemma {:induction false} ApplyAllPreserves<T, O>(x: T, opts: seq<O>, apply: (T, O) -> T, p: T -> bool)
    requires p(x)
    requires forall y, o :: p(y) ==> p(apply(y, o))
    ensures p(ApplyAll(x, opts, apply))
  {
    if opts != [] {
      ApplyAllPreserves(apply(x, opts[0]), opts[1..], apply, p);
    }
  }

  /** The `for _, opt := range options { opt(&x) }` loop of the constructors. */
  method ApplyOptions<T, O>(x: T, opts: seq<O>, apply: (T, O) -> T) returns (r: T)
    ensures r == ApplyAll(x, opts, apply)
  {
    r := x;
    var i := 0;
    while i < |opts|
      invariant 0 <= i <= |opts|
      invariant ApplyAll(x, opts, apply) == ApplyAll(r, opts[i..], apply)
    {
      assert opts[i..][0] == opts[i];
      assert opts[i..][1..] == opts[i + 1..];
      r := apply(r, opts[i]);
      i := i + 1;
    }
  }
}
