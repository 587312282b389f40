/** JSON values, and the rules by which Go's encoding/json decodes a JSON value
    into a Go struct:
    - a JSON object fills the struct field by field; unknown keys are ignored
      and missing keys leave the field at its zero value;
    - `null` leaves the target as it was (for a fresh target: the zero value);
    - any other JSON value is a type error;
    - a field whose value has the wrong JSON kind is a type error, and the
      remaining fields are still filled (the "partial fill" a caller sees).
    Each struct is modelled by a predicate `XFits(v)` (json.Unmarshal into a
    fresh X returns no error) and a function `XFrom(v)` (what the fresh X holds
    afterwards, error or not). */
module Json {

  datatype Option<+T> = None | Some(value: T)

  datatype Result<+T, +E> = Ok(value: T) | Err(error: E)

  /** Go's int64. */
  newtype int64 = x: int | -0x8000_0000_0000_0000 <= x < 0x8000_0000_0000_0000

  /** A JSON number literal. Integer literals are kept as integers, every other
      literal (fraction, exponent) is an opaque token: float64 arithmetic is
      never performed by the modelled code. */
  datatype Number = Integral(i: int) | Fractional(literal: string)

  const ZeroNumber: Number := Integral(0)

  datatype Json =
    | JNull
    | JBool(b: bool)
    | JNumber(n: Number)
    | JString(s: string)
    | JArray(items: seq<Json>)
    | JObject(fields: map<string, Json>)

  /** The decode failures the modelled code can report. `TypeMismatch` is Go's
      UnmarshalTypeError and names the Go type that was being decoded;
      `EndOfInput` is json.Unmarshal of an empty json.RawMessage (a field that
      was absent). The other four are the fmt.Errorf errors of the unions. */
  datatype DecodeError =
    | EndOfInput
    | TypeMismatch(target: string)
    | UnknownCounterType(counterType: string)
    | UnsupportedSpecifiedValue(goType: string)
    | UnknownSelectorType(selectorType: string)
    | UnknownSource(source: string)

  /** A decode into a receiver: what the receiver holds afterwards, and the error. */
  datatype Decoded<+T> = Decoded(value: T, err: Option<DecodeError>)

  /** The value stored under `key`, or None when `v` is not an object or has no such key. */
  function Field(v: Json, key: string): (f: Option<Json>)
    ensures f.Some? <==> v.JObject? && key in v.fields
  {
    if v.JObject? && key in v.fields then Some(v.fields[key]) else None
  }

  /** The top-level shape test of json.Unmarshal into a struct. */
  predicate StructFits(v: Json)
  {
    v.JNull? || v.JObject?
  }

  predicate IsNull(f: Option<Json>)
  {
    f.None? || f.value.JNull?
  }

  // ----- scalar fields -----

  predicate StringFits(f: Option<Json>)
  {
    IsNull(f) || f.value.JString?
  }

  function StringFrom(f: Option<Json>): string
  {
    if f.Some? && f.value.JString? then f.value.s else ""
  }

  predicate BoolFits(f: Option<Json>)
  {
    IsNull(f) || f.value.JBool?
  }

  function BoolFrom(f: Option<Json>): bool
  {
    f.Some? && f.value.JBool? && f.value.b
  }

  /** Go parses an int64 field with strconv.ParseInt: only an integer literal in range fits. */
  predicate IsInt64(n: Number)
  {
    n.Integral? && -0x8000_0000_0000_0000 <= n.i < 0x8000_0000_0000_0000
  }

  predicate Int64Fits(f: Option<Json>)
  {
    IsNull(f) || (f.value.JNumber? && IsInt64(f.value.n))
  }

  function Int64From(f: Option<Json>): int64
  {
    if f.Some? && f.value.JNumber? && IsInt64(f.value.n) then f.value.n.i as int64 else 0
  }

  predicate FloatFits(f: Option<Json>)
  {
    IsNull(f) || f.value.JNumber?
  }

  function FloatFrom(f: Option<Json>): Number
  {
    if f.Some? && f.value.JNumber? then f.value.n else ZeroNumber
  }

  // ----- composite fields -----

  /** A slice field: absent, null or an array whose every element fits. */
  predicate ListFits(f: Option<Json>, fits: Json -> bool)
  {
    IsNull(f) || (f.value.JArray? && forall i :: 0 <= i < |f.value.items| ==> fits(f.value.items[i]))
  }

  function ListFrom<T>(f: Option<Json>, from: Json -> T): seq<T>
  {
    if f.Some? && f.value.JArray? then Map(f.value.items, from) else []
  }

  /** A slice of json.RawMessage: any array. */
  predicate RawListFits(f: Option<Json>)
  {
    IsNull(f) || f.value.JArray?
  }

  function RawListFrom(f: Option<Json>): seq<Json>
  {
    if f.Some? && f.value.JArray? then f.value.items else []
  }

  /** A nested struct field (not a pointer): absent, or a value the struct accepts. */
  predicate NestedFits(f: Option<Json>, fits: Json -> bool)
  {
    f.None? || fits(f.value)
  }

  function NestedFrom<T>(f: Option<Json>, from: Json -> T, zero: T): T
  {
    if f.Some? then from(f.value) else zero
  }

  /** A pointer field: absent or null gives nil. */
  predicate PointerFits(f: Option<Json>, fits: Json -> bool)
  {
    IsNull(f) || fits(f.value)
  }

  function PointerFrom<T>(f: Option<Json>, from: Json -> T): Option<T>
  {
    if IsNull(f) then None else Some(from(f.value))
  }

  predicate StringValueFits(v: Json)
  {
    v.JNull? || v.JString?
  }

  function StringValueFrom(v: Json): string
  {
    if v.JString? then v.s else ""
  }

  /** A map[string]string field. */
  predicate StringMapFits(f: Option<Json>)
  {
    IsNull(f) || (f.value.JObject? && forall k :: k in f.value.fields ==> StringValueFits(f.value.fields[k]))
  }

  function StringMapFrom(f: Option<Json>): map<string, string>
  {
    if f.Some? && f.value.JObject? then map k | k in f.value.fields :: StringValueFrom(f.value.fields[k]) else map[]
  }

  // ----- shorthands for a field looked up by key -----

  function Str(v: Json, key: string): string { StringFrom(Field(v, key)) }

  predicate StrFits(v: Json, key: string) { StringFits(Field(v, key)) }

  function Flag(v: Json, key: string): bool { BoolFrom(Field(v, key)) }

  predicate FlagFits(v: Json, key: string) { BoolFits(Field(v, key)) }

  function Int(v: Json, key: string): int64 { Int64From(Field(v, key)) }

  predicate IntFits(v: Json, key: string) { Int64Fits(Field(v, key)) }

  function Strs(v: Json, key: string): seq<string> { ListFrom(Field(v, key), StringValueFrom) }

  predicate StrsFit(v: Json, key: string) { ListFits(Field(v, key), StringValueFits) }

  // ----- encoding helpers (encoding/json.Marshal) -----

  function Map<A, B>(xs: seq<A>, f: A -> B): (ys: seq<B>)
    ensures |ys| == |xs|
    ensures forall i :: 0 <= i < |xs| ==> ys[i] == f(xs[i])
  {
    seq(|xs|, i requires 0 <= i < |xs| => f(xs[i]))
  }

  function EncodeInt(i: int64): Json
  {
    JNumber(Integral(i as int))
  }

  /** A slice: nil (no element) is written as null. */
  function EncodeList<T>(xs: seq<T>, enc: T -> Json): Json
  {
    if xs == [] then JNull else JArray(Map(xs, enc))
  }

  function EncodeStringMap(m: map<string, string>): Json
  {
    JObject(map k | k in m :: JString(m[k]))
  }

  /** Adds `key` unless an `omitempty` tag drops it (`keep` is false). */
  function PutIf(m: map<string, Json>, keep: bool, key: string, v: Json): (r: map<string, Json>)
  {
    if keep then m[key := v] else m
  }

  // ----- round-trip facts for the scalar and list rules -----

  lemma {:induction false} ListRoundTrip<T(!new)>(xs: seq<T>, enc: T -> Json, fits: Json -> bool, from: Json -> T)
    requires forall x :: x in xs ==> fits(enc(x)) && from(enc(x)) == x
    ensures ListFits(Some(EncodeList(xs, enc)), fits)
    ensures ListFrom(Some(EncodeList(xs, enc)), from) == xs
  {
    if xs != [] {
      var ys := Map(xs, enc);
      forall i | 0 <= i < |ys| ensures fits(ys[i]) && from(ys[i]) == xs[i] {
        assert xs[i] in xs;
      }
      assert Map(ys, from) == xs;
    }
  }

  function EncodeStr(s: string): Json { JString(s) }

  function EncodeStrs(xs: seq<string>): Json { EncodeList(xs, EncodeStr) }

  lemma StrsRoundTrip(xs: seq<string>)
    ensures ListFits(Some(EncodeStrs(xs)), StringValueFits)
    ensures ListFrom(Some(EncodeStrs(xs)), StringValueFrom) == xs
  {
    ListRoundTrip(xs, EncodeStr, StringValueFits, StringValueFrom);
  }

  lemma StringMapRoundTrip(m: map<string, string>)
    ensures StringMapFits(Some(EncodeStringMap(m)))
    ensures StringMapFrom(Some(EncodeStringMap(m))) == m
  {
    var e := EncodeStringMap(m).fields;
    assert e.Keys == m.Keys;
    var back := map k | k in e :: StringValueFrom(e[k]);
    assert back.Keys == m.Keys;
  }
}
