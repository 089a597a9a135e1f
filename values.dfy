/** Timeline properties, the dynamically typed values a snapshot holds, and
  * the value providers that read them. */
module Values {
  import opened Wrappers
  import opened Geometry
  import opened Anchors
  import opened JavaInt

  /** The Java objects that flow through snapshots, bindings and effect
    * parameters. `Int` holds a 32-bit and `Long` a 64-bit integer; `Double`
    * and `Float` are both modelled by reals. */
  datatype Value =
    | Null
    | Bool(b: bool)
    | Int(i: int)
    | Long(l: int)
    | Double(d: real)
    | Float(f: real)
    | Text(s: string)
    | Vector(v: Vec3)
    | Quaternion(q: Quat)
    | Xform(t: Transform)
    | Anchor(p: Provider)
    | List(items: seq<Value>)
    | Color(rgb: int)
    | Other(tag: nat)

  /** `instanceof Number`. */
  predicate IsNumber(v: Value)
  {
    v.Int? || v.Long? || v.Double? || v.Float?
  }

  /** `Number.doubleValue()`. */
  function DoubleValue(v: Value): real
    requires IsNumber(v)
  {
    match v
      case Int(i) => i as real
      case Long(l) => l as real
      case Double(d) => d
      case Float(f) => f
  }
  /** `Number.intValue()`: a long keeps its low 32 bits; a double or float
    * is truncated and saturated. */
  function IntValue(v: Value): (r: int)
    requires IsNumber(v)
    ensures IsInt32(r)
    ensures v.Int? && IsInt32(v.i) ==> r == v.i
  {
    match v
      case Int(i) => Wrap32(i)
      case Long(l) => Wrap32(l)
      case Double(d) => DoubleToInt(d)
      case Float(f) => DoubleToInt(f)
  }

  /** `Number.longValue()`. */
  function LongValue(v: Value): (r: int)
    requires IsNumber(v)
    ensures IsInt64(r)
    ensures (v.Int? || v.Long?) && IsInt64(if v.Int? then v.i else v.l) ==> r == (if v.Int? then v.i else v.l)
  {
    match v
      case Int(i) => Wrap64(i)
      case Long(l) => Wrap64(l)
      case Double(d) => DoubleToLong(d)
      case Float(f) => DoubleToLong(f)
  }


  // ---------------------------------------------------------- properties

  /** `Character.isWhitespace`: the ASCII controls it accepts, the separators
    * U+001C to U+001F, and the Unicode space, line and paragraph separators
    * other than the non-breaking ones. */
  predicate IsWhitespace(c: char)
  {
    || c == ' ' || c == '\t' || c == '\n' || c == '\U{000B}' || c == '\U{000C}' || c == '\r'
    || ('\U{001C}' <= c <= '\U{001F}')
    || c == '\U{1680}' || ('\U{2000}' <= c <= '\U{2006}') || ('\U{2008}' <= c <= '\U{200A}')
    || c == '\U{2028}' || c == '\U{2029}' || c == '\U{205F}' || c == '\U{3000}'
  }

  /** `String.isBlank`. */
  predicate IsBlank(s: string)
  {
    forall i :: 0 <= i < |s| ==> IsWhitespace(s[i])
  }

  /** `TimelineProperty`: equal exactly when the ids are equal. */
  datatype Property = Property(id: string)

  /** `TimelineProperty.of(id)`: a blank id is refused. */
  function MakeProperty(id: string): (r: Result<Property>)
    ensures r.Ok? <==> exists i :: 0 <= i < |id| && !IsWhitespace(id[i])
    ensures r.Ok? ==> r.value.id == id
    ensures r.Err? ==> r.failure.IllegalArgument?
  {
    if IsBlank(id) then Err(IllegalArgument("Timeline property id must not be blank"))
    else Ok(Property(id))
  }

  lemma BlankExamples()
    ensures MakeProperty("").Err? && MakeProperty(" \t\n").Err?
    ensures MakeProperty("radius") == Ok(Property("radius"))
    ensures MakeProperty("\U{00A0}").Ok?
  {
    assert !IsWhitespace("radius"[0]);
    assert !IsWhitespace("\U{00A0}"[0]);
  }

  // ----------------------------------------------------------- snapshots

  /** `TimelineSnapshot`: the sampled values and the time they were taken at. */
  datatype Snapshot = Snapshot(values: map<Property, Value>, time: real)

  /** `get`: an absent property reads as null. */
  function Get(s: Snapshot, p: Property): (r: Value)
    ensures p !in s.values ==> r == Null
    ensures p in s.values ==> r == s.values[p]
  {
    if p in s.values then s.values[p] else Null
  }

  /** `getOrDefault`: null and absent both give the fallback. */
  function GetOrDefault(s: Snapshot, p: Property, fallback: Value): (r: Value)
    ensures (p in s.values && s.values[p] != Null) ==> r == s.values[p]
    ensures (p !in s.values || s.values[p] == Null) ==> r == fallback
  {
    var v := Get(s, p);
    if v != Null then v else fallback
  }

  // ----------------------------------------------------- value providers

  /** `ValueProvider`: `ConstantValue`, `AnimatedValue`, or any other function
    * of the (possibly null) snapshot. */
  datatype ValueProvider =
    | Constant(value: Value)
    | Animated(property: Property, default: Value)
    | Computed(f: Option<Snapshot> -> Value)

  /** `ValueProvider.get(snapshot)`. */
  function Provide(vp: ValueProvider, s: Option<Snapshot>): (r: Value)
  {
    match vp
      case Constant(v) => v
      case Animated(p, d) => if s.None? then d else GetOrDefault(s.value, p, d)
      case Computed(f) => f(s)
  }

  /** A constant ignores the snapshot; an animated value reads its property
    * and falls back to its default for a null snapshot, a missing property or
    * a null value. */
  lemma ProvideSpec(vp: ValueProvider, s: Option<Snapshot>)
    ensures vp.Constant? ==> Provide(vp, s) == vp.value
    ensures vp.Animated? && s.Some? && vp.property in s.value.values && s.value.values[vp.property] != Null
      ==> Provide(vp, s) == s.value.values[vp.property]
    ensures vp.Animated? && (s.None? || vp.property !in s.value.values || s.value.values[vp.property] == Null)
      ==> Provide(vp, s) == vp.default
  {
  }

  /** The `new AnimatedValue(property)` constructor: no default. */
  function AnimatedNoDefault(p: Property): (r: ValueProvider)
    ensures r.Animated? && r.property == p && r.default == Null
  {
    Animated(p, Null)
  }

  // ------------------------------------------------ typed reads of values

  /** A `ValueProvider<Double>` read: null (or a value of another type) is
    * absent. */
  function AsDouble(v: Value): (r: Option<real>)
    ensures r.Some? <==> v.Double?
    ensures r.Some? ==> r.value == v.d
  {
    if v.Double? then Some(v.d) else None
  }

  function AsVector(v: Value): (r: Option<Vec3>)
    ensures r.Some? <==> v.Vector?
    ensures r.Some? ==> r.value == v.v
  {
    if v.Vector? then Some(v.v) else None
  }

  function AsQuat(v: Value): (r: Option<Quat>)
    ensures r.Some? <==> v.Quaternion?
    ensures r.Some? ==> r.value == v.q
  {
    if v.Quaternion? then Some(v.q) else None
  }

  function AsTransform(v: Value): (r: Option<Transform>)
    ensures r.Some? <==> v.Xform?
    ensures r.Some? ==> r.value == v.t
  {
    if v.Xform? then Some(v.t) else None
  }

  function AsAnchor(v: Value): (r: Option<Provider>)
    ensures r.Some? <==> v.Anchor?
    ensures r.Some? ==> r.value == v.p
  {
    if v.Anchor? then Some(v.p) else None
  }
}
