/** Geofence geometries (circle, polygon, corridor) and the Geofence record of
    the gateway geofence resource. A geometry is decoded without looking at its
    `type` tag: the decoder tries the Circle shape, then Polygon, then Corridor. */
module Geofences {
  import opened Json

  datatype Point = Point(lat: Number, lon: Number)

  const ZeroPoint := Point(ZeroNumber, ZeroNumber)

  /** The three geometry structs; `tag` is each struct's stored `Type` field. */
  datatype Geometry =
    | Circle(tag: string, center: Point, radius: Number)
    | Polygon(tag: string, path: seq<Point>)
    | Corridor(tag: string, path: seq<Point>, width: Number)

  /** GetType: a fixed name per struct, whatever the stored Type field says. */
  function GetType(g: Geometry): string
  {
    match g
    case Circle(_, _, _) => "circle"
    case Polygon(_, _) => "polygon"
    case Corridor(_, _, _) => "corridor"
  }

  function NewCircle(center: Point, radius: Number): (g: Geometry)
    ensures g.Circle? && g.center == center && g.radius == radius
    ensures g.tag == GetType(g) == "circle"
  {
    Circle("circle", center, radius)
  }

  function NewPolygon(path: seq<Point>): (g: Geometry)
    ensures g.Polygon? && g.path == path
    ensures g.tag == GetType(g) == "polygon"
  {
    Polygon("polygon", path)
  }

  function NewCorridor(path: seq<Point>, width: Number): (g: Geometry)
    ensures g.Corridor? && g.path == path && g.width == width
    ensures g.tag == GetType(g) == "corridor"
  {
    Corridor("corridor", path, width)
  }

  // ----- decoding (encoding/json into each struct) -----

  predicate PointFits(v: Json)
  {
    StructFits(v) && FloatFits(Field(v, "lat")) && FloatFits(Field(v, "lon"))
  }

  function PointFrom(v: Json): Point
  {
    Point(FloatFrom(Field(v, "lat")), FloatFrom(Field(v, "lon")))
  }

  predicate CircleFits(v: Json)
  {
    && StructFits(v)
    && StringFits(Field(v, "type"))
    && NestedFits(Field(v, "center"), PointFits)
    && FloatFits(Field(v, "radius"))
  }

  function CircleFrom(v: Json): Geometry
  {
    Circle(StringFrom(Field(v, "type")), NestedFrom(Field(v, "center"), PointFrom, ZeroPoint), FloatFrom(Field(v, "radius")))
  }

  predicate PolygonFits(v: Json)
  {
    StructFits(v) && StringFits(Field(v, "type")) && ListFits(Field(v, "path"), PointFits)
  }

  function PolygonFrom(v: Json): Geometry
  {
    Polygon(StringFrom(Field(v, "type")), ListFrom(Field(v, "path"), PointFrom))
  }

  predicate CorridorFits(v: Json)
  {
    PolygonFits(v) && FloatFits(Field(v, "width"))
  }

  function CorridorFrom(v: Json): Geometry
  {
    Corridor(StringFrom(Field(v, "type")), ListFrom(Field(v, "path"), PointFrom), FloatFrom(Field(v, "width")))
  }

  /** UnmarshalGeometry: three decode attempts in a fixed order; the first that
      succeeds wins, and when all fail the Corridor attempt's error is returned.
      Because the Corridor shape only adds a field to the Polygon shape, the
      Corridor attempt can never be the one that succeeds. */
  function UnmarshalGeometry(raw: Json): (r: Result<Geometry, DecodeError>)
    ensures r.Ok? <==> CircleFits(raw) || PolygonFits(raw)
    ensures r.Ok? ==> !r.value.Corridor?
    ensures r.Ok? && r.value.Polygon? ==> !CircleFits(raw)
    ensures r.Ok? ==> r.value.tag == StringFrom(Field(raw, "type"))
    ensures r.Err? ==> r.error == TypeMismatch("Corridor")
  {
    if CircleFits(raw) then Ok(CircleFrom(raw))
    else if PolygonFits(raw) then Ok(PolygonFrom(raw))
    else if CorridorFits(raw) then Ok(CorridorFrom(raw))
    else Err(TypeMismatch("Corridor"))
  }

  // ----- encoding (encoding/json.Marshal of each struct) -----

  function EncodePoint(p: Point): Json
  {
    JObject(map["lat" := JNumber(p.lat), "lon" := JNumber(p.lon)])
  }

  function EncodeGeometry(g: Geometry): Json
  {
    match g
    case Circle(tag, center, radius) =>
      JObject(map["type" := JString(tag), "center" := EncodePoint(center), "radius" := JNumber(radius)])
    case Polygon(tag, path) =>
      JObject(map["type" := JString(tag), "path" := EncodeList(path, EncodePoint)])
    case Corridor(tag, path, width) =>
      JObject(map["type" := JString(tag), "path" := EncodeList(path, EncodePoint), "width" := JNumber(width)])
  }

  lemma PointRoundTrip(p: Point)
    ensures PointFits(EncodePoint(p)) && PointFrom(EncodePoint(p)) == p
  {
  }

  lemma PathRoundTrip(path: seq<Point>)
    ensures ListFits(Some(EncodeList(path, EncodePoint)), PointFits)
    ensures ListFrom(Some(EncodeList(path, EncodePoint)), PointFrom) == path
  {
    forall p | p in path ensures PointFits(EncodePoint(p)) && PointFrom(EncodePoint(p)) == p {
      PointRoundTrip(p);
    }
    ListRoundTrip(path, EncodePoint, PointFits, PointFrom);
  }

  /** A circle survives encoding and decoding unchanged, whatever its tag. */
  lemma CircleRoundTrip(g: Geometry)
    requires g.Circle?
    ensures UnmarshalGeometry(EncodeGeometry(g)) == Ok(g)
  {
    PointRoundTrip(g.center);
  }

  /** A polygon or a corridor does not survive: its encoding fits the Circle
      shape (the extra keys are ignored), so it comes back as a Circle that
      keeps the wire tag, centred on (0, 0) with radius 0. */
  lemma NonCircleDecodesAsCircle(g: Geometry)
    requires !g.Circle?
    ensures UnmarshalGeometry(EncodeGeometry(g)) == Ok(Circle(g.tag, ZeroPoint, ZeroNumber))
    ensures GetType(UnmarshalGeometry(EncodeGeometry(g)).value) == "circle" != GetType(g)
  {
  }

  /** Any object whose type is a string (or absent) and that has neither a
      `center` nor a `radius` key decodes as a Circle, whatever its type tag. */
  lemma ObjectWithoutCircleKeysIsCircle(raw: Json)
    requires raw.JObject? && StringFits(Field(raw, "type"))
    requires "center" !in raw.fields && "radius" !in raw.fields
    ensures UnmarshalGeometry(raw) == Ok(Circle(StringFrom(Field(raw, "type")), ZeroPoint, ZeroNumber))
  {
  }

  /** A Polygon is returned only when the Circle attempt failed on a
      wrongly typed `center` or `radius`. */
  lemma PolygonOnlyAfterCircleFieldMismatch(raw: Json)
    requires UnmarshalGeometry(raw).Ok? && UnmarshalGeometry(raw).value.Polygon?
    ensures !NestedFits(Field(raw, "center"), PointFits) || !FloatFits(Field(raw, "radius"))
  {
  }

  // ----- the Geofence record -----

  /** `geometry` is None for Go's nil GeofenceGeometry interface. */
  datatype Geofence = Geofence(id: int64, name: string, enabled: bool, priority: int64, geometry: Option<Geometry>)

  predicate GeofenceRawFits(v: Json)
  {
    && StructFits(v)
    && Int64Fits(Field(v, "id"))
    && StringFits(Field(v, "name"))
    && BoolFits(Field(v, "enabled"))
    && Int64Fits(Field(v, "priority"))
  }

  /** Geofence.UnmarshalJSON on a receiver that holds `prior`: the scalars are
      copied first, then the geometry is decoded; a missing geometry is an
      empty json.RawMessage and fails to decode. */
  function UnmarshalGeofence(prior: Geofence, data: Json): (r: Decoded<Geofence>)
    ensures !GeofenceRawFits(data) ==> r == Decoded(prior, Some(TypeMismatch("Geofence")))
    ensures GeofenceRawFits(data) ==>
      && r.value.id == Int64From(Field(data, "id"))
      && r.value.name == StringFrom(Field(data, "name"))
      && r.value.enabled == BoolFrom(Field(data, "enabled"))
      && r.value.priority == Int64From(Field(data, "priority"))
    ensures r.err.None? <==> GeofenceRawFits(data) && Field(data, "geometry").Some? && UnmarshalGeometry(Field(data, "geometry").value).Ok?
    ensures r.err.None? ==> r.value.geometry == Some(UnmarshalGeometry(Field(data, "geometry").value).value)
    ensures r.err.Some? ==> r.value.geometry == prior.geometry
  {
    if !GeofenceRawFits(data) then Decoded(prior, Some(TypeMismatch("Geofence")))
    else
      var g := prior.(id := Int64From(Field(data, "id")), name := StringFrom(Field(data, "name")),
                      enabled := BoolFrom(Field(data, "enabled")), priority := Int64From(Field(data, "priority")));
      var raw := Field(data, "geometry");
      if raw.None? then Decoded(g, Some(EndOfInput))
      else match UnmarshalGeometry(raw.value)
        case Err(e) => Decoded(g, Some(e))
        case Ok(geometry) => Decoded(g.(geometry := Some(geometry)), None)
  }

  /** The geofence option closures WithStatus, WithPriority, WithGeometry;
      WithGeometry(None) is WithGeometry called with a nil geometry. */
  datatype GeofenceOption =
    | WithStatus(enabled: bool)
    | WithPriority(priority: int64)
    | WithGeometry(geometry: Option<Geometry>)

  /** Each option sets exactly its own field and leaves every other one alone. */
  function ApplyGeofenceOption(g: Geofence, o: GeofenceOption): (r: Geofence)
    ensures r.id == g.id && r.name == g.name
    ensures r.enabled == (if o.WithStatus? then o.enabled else g.enabled)
    ensures r.priority == (if o.WithPriority? then o.priority else g.priority)
    ensures r.geometry == (if o.WithGeometry? then o.geometry else g.geometry)
  {
    match o
    case WithStatus(enabled) => g.(enabled := enabled)
    case WithPriority(priority) => g.(priority := priority)
    case WithGeometry(geometry) => g.(geometry := geometry)
  }
}
