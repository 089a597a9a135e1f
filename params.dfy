/** `EvaluatedParams`: the immutable parameter map an effect reads, with
  * typed getters that fall back to a default when the value is missing or of
  * another type. */
module Params {
  import opened Wrappers
  import opened Geometry
  import opened JavaInt
  import opened Values

  datatype EvaluatedParams = EvaluatedParams(values: map<string, Value>)

  const NoParams: EvaluatedParams := EvaluatedParams(map[])

  /** The parameters `fromValues` can produce hold no null value. */
  ghost predicate WellFormed(p: EvaluatedParams)
  {
    forall k :: k in p.values ==> p.values[k] != Null
  }

  /** `fromValues`: a null or empty map gives the empty parameters; otherwise
    * a copy, which `Map.copyOf` refuses to make when a value is null. */
  function FromValues(values: Option<map<string, Value>>): (r: Result<EvaluatedParams>)
    ensures values.None? || values.value == map[] ==> r == Ok(NoParams)
    ensures r.Ok? ==> WellFormed(r.value)
    ensures values.Some? ==> (r.Ok? <==> forall k :: k in values.value ==> values.value[k] != Null)
    ensures values.Some? && r.Ok? ==> r.value.values == values.value
    ensures r.Err? ==> r.failure.NullPointer?
  {
    if values.None? || values.value == map[] then Ok(NoParams)
    else if Null in values.value.Values then Err(NullPointer("value"))
    else Ok(EvaluatedParams(values.value))
  }

  /** `has(key)`. */
  predicate Has(p: EvaluatedParams, key: string)
  {
    key in p.values
  }

  /** `raw(key)`: null when absent. */
  function Raw(p: EvaluatedParams, key: string): (r: Value)
    ensures !Has(p, key) ==> r == Null
    ensures Has(p, key) ==> r == p.values[key]
  {
    if key in p.values then p.values[key] else Null
  }

  /** `getRaw(key, def)`: the default for a missing or null value. */
  function GetRaw(p: EvaluatedParams, key: string, def: Value): (r: Value)
    ensures Raw(p, key) == Null ==> r == def
    ensures Raw(p, key) != Null ==> r == Raw(p, key)
  {
    var v := Raw(p, key);
    if v == Null then def else v
  }

  /** `getDouble(key, def)`: any number, converted; nothing else (strings
    * included) is accepted. */
  function GetDouble(p: EvaluatedParams, key: string, def: real): (r: real)
    ensures IsNumber(Raw(p, key)) ==> r == DoubleValue(Raw(p, key))
    ensures !IsNumber(Raw(p, key)) ==> r == def
  {
    var v := Raw(p, key);
    if IsNumber(v) then DoubleValue(v) else def
  }

  /** `getInt(key, def)`: `Number.intValue()` of any number. */
  function GetInt(p: EvaluatedParams, key: string, def: int): (r: int)
    ensures IsNumber(Raw(p, key)) ==> r == IntValue(Raw(p, key))
    ensures !IsNumber(Raw(p, key)) ==> r == def
  {
    var v := Raw(p, key);
    if IsNumber(v) then IntValue(v) else def
  }

  /** `getBool(key, def)`: only a Boolean. */
  function GetBool(p: EvaluatedParams, key: string, def: bool): (r: bool)
    ensures Raw(p, key).Bool? ==> r == Raw(p, key).b
    ensures !Raw(p, key).Bool? ==> r == def
  {
    var v := Raw(p, key);
    if v.Bool? then v.b else def
  }

  /** A list of exactly three numbers. */
  predicate IsNumberTriple(v: Value)
  {
    v.List? && |v.items| == 3 && forall i :: 0 <= i < 3 ==> IsNumber(v.items[i])
  }

  /** `getVec3(key, def)`: a vector, or a list of exactly three numbers. */
  function GetVec3(p: EvaluatedParams, key: string, def: Vec3): (r: Vec3)
    ensures Raw(p, key).Vector? ==> r == Raw(p, key).v
    ensures IsNumberTriple(Raw(p, key)) ==>
      var xs := Raw(p, key).items;
      r == Vec3(DoubleValue(xs[0]), DoubleValue(xs[1]), DoubleValue(xs[2]))
    ensures !Raw(p, key).Vector? && !IsNumberTriple(Raw(p, key)) ==> r == def
  {
    var v := Raw(p, key);
    if v.Vector? then v.v
    else if IsNumberTriple(v) then Vec3(DoubleValue(v.items[0]), DoubleValue(v.items[1]), DoubleValue(v.items[2]))
    else def
  }

  /** `getColor(key, def)`: only a color. */
  function GetColor(p: EvaluatedParams, key: string, def: int): (r: int)
    ensures Raw(p, key).Color? ==> r == Raw(p, key).rgb
    ensures !Raw(p, key).Color? ==> r == def
  {
    var v := Raw(p, key);
    if v.Color? then v.rgb else def
  }

  /** A numeric string is not a number to the typed getters. */
  lemma StringsAreNotNumbers(p: EvaluatedParams, key: string, s: string, d: real, i: int)
    requires p.values == map[key := Text(s)]
    ensures GetDouble(p, key, d) == d && GetInt(p, key, i) == i
    ensures GetRaw(p, key, Null) == Text(s)
  {
  }

  /** `getInt` truncates a double toward zero, and a long keeps its low 32
    * bits. */
  lemma GetIntConversions(p: EvaluatedParams, key: string)
    ensures p.values == map[key := Double(-2.75)] ==> GetInt(p, key, 0) == -2
    ensures p.values == map[key := Long(0x1_0000_0005)] ==> GetInt(p, key, 0) == 5
  {
    if p.values == map[key := Double(-2.75)] {
      assert Trunc(-2.75) == -2;
    }
  }

  /** A list of three numbers of mixed kinds reads as a vector; a list of two
    * does not. */
  lemma GetVec3Lists(p: EvaluatedParams, key: string, def: Vec3)
    ensures p.values == map[key := List([Int(1), Double(2.5), Long(3)])] ==> GetVec3(p, key, def) == Vec3(1.0, 2.5, 3.0)
    ensures p.values == map[key := List([Int(1), Int(2)])] ==> GetVec3(p, key, def) == def
    ensures p.values == map[key := List([Int(1), Text("2"), Int(3)])] ==> GetVec3(p, key, def) == def
  {
    if p.values == map[key := List([Int(1), Text("2"), Int(3)])] {
      assert !IsNumber(Raw(p, key).items[1]);
    }
  }
}
