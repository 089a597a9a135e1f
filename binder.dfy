/** `PropertyBinder.bindPropertiesAndDetectChanges` over an explicit field
  * schema, and `AnimatedEffect.sample`'s render-or-skip rule. */
module Binder {
  import opened Wrappers
  import opened Geometry
  import opened JavaInt
  import opened Values
  import opened Params
  import opened Particles

  // ------------------------------------------------------------- schema

  datatype NumberKind = DoubleKind | FloatKind | IntKind | LongKind

  /** The declared type of an annotated field; `primitive` tells `double`
    * from `Double` and so on. */
  datatype FieldType =
    | NumberField(kind: NumberKind, primitive: bool)
    | BoolField(primitive: bool)
    | StringField
    | VectorField
    | ColorField
    | OtherField

  /** One annotated field: its parameter name, its type and its parsed
    * default (present only when the annotation gives a non-empty one). */
  datatype FieldBinding = FieldBinding(name: string, fieldType: FieldType, hasDefault: bool, default: Value)

  /** `Double.parseDouble`, `Float.parseFloat`, `Integer.parseInt` and
    * `Long.parseLong`: None where they throw `NumberFormatException`. */
  type NumberParser = (NumberKind, string) -> Option<Value>

  /** `String.valueOf` of a value that is not a string. */
  type Stringifier = Value -> string

  // --------------------------------------------------------- extraction

  /** What an extractor reads: nothing (the `ABSENT` marker), or a value,
    * possibly null. */
  datatype Extracted = Absent | Present(value: Value)

  /** A number converted to the field's kind (`doubleValue`, `floatValue`,
    * `intValue`, `longValue`). */
  function Convert(kind: NumberKind, v: Value): (r: Value)
    requires IsNumber(v)
    ensures IsNumber(r)
    ensures kind == IntKind ==> r.Int? && IsInt32(r.i)
    ensures kind == LongKind ==> r.Long? && IsInt64(r.l)
    ensures kind == DoubleKind ==> r == Double(DoubleValue(v))
  {
    match kind
    case DoubleKind => Double(DoubleValue(v))
    case FloatKind => Float(DoubleValue(v))
    case IntKind => Int(IntValue(v))
    case LongKind => Long(LongValue(v))
  }

  /** `number(p, key, to)`. */
  function ExtractNumber(p: EvaluatedParams, key: string, kind: NumberKind, parse: NumberParser): (r: Extracted)
    ensures !Has(p, key) ==> r == Absent
    ensures Has(p, key) && Raw(p, key) == Null ==> r == Present(Null)
    ensures Has(p, key) && IsNumber(Raw(p, key)) ==> r == Present(Convert(kind, Raw(p, key)))
    ensures r.Present? && r.value != Null && !IsNumber(Raw(p, key)) ==>
      Raw(p, key).Text? && |Raw(p, key).s| > 0 && parse(kind, Raw(p, key).s) == Some(r.value)
  {
    if !Has(p, key) then Absent
    else
      var v := Raw(p, key);
      if v == Null then Present(Null)
      else if IsNumber(v) then Present(Convert(kind, v))
      else if v.Text? && |v.s| > 0 then
        var parsed := parse(kind, v.s);
        if parsed.Some? then Present(parsed.value) else Absent
      else Absent
  }

  /** Whether `c` matches the lower-case ASCII letter `lower` under
    * `equalsIgnoreCase`: the letter itself, its upper case, or (for `s`) the
    * long s, whose upper case is `S`. */
  predicate MatchesIgnoringCase(c: char, lower: char)
    requires 'a' <= lower <= 'z'
  {
    c == lower || c == (lower as int - 32) as char || (lower == 's' && c == '\U{017F}')
  }

  /** `s.equalsIgnoreCase(word)` for a lower-case ASCII word. */
  predicate EqualsIgnoreCase(s: string, word: string)
    requires forall i :: 0 <= i < |word| ==> 'a' <= word[i] <= 'z'
  {
    |s| == |word| && forall i :: 0 <= i < |s| ==> MatchesIgnoringCase(s[i], word[i])
  }

  /** `bool(p, key)`: a Boolean, or a string equal to "true" or "false"
    * ignoring case. */
  function ExtractBool(p: EvaluatedParams, key: string): (r: Extracted)
    ensures !Has(p, key) ==> r == Absent
    ensures r.Present? ==> r.value == Null || r.value.Bool?
    ensures Has(p, key) && Raw(p, key).Bool? ==> r == Present(Raw(p, key))
  {
    if !Has(p, key) then Absent
    else
      var v := Raw(p, key);
      if v == Null then Present(Null)
      else if v.Bool? then Present(v)
      else if v.Text? && EqualsIgnoreCase(v.s, "true") then Present(Bool(true))
      else if v.Text? && EqualsIgnoreCase(v.s, "false") then Present(Bool(false))
      else Absent
  }

  /** The extractor `buildExtractor` picks for a field type. */
  function Extract(b: FieldBinding, p: EvaluatedParams, parse: NumberParser, show: Stringifier): (r: Extracted)
    ensures !Has(p, b.name) ==> r == Absent
  {
    var key := b.name;
    match b.fieldType
    case NumberField(kind, _) => ExtractNumber(p, key, kind, parse)
    case BoolField(_) => ExtractBool(p, key)
    case StringField =>
      if !Has(p, key) then Absent
      else if Raw(p, key) == Null then Present(Null)
      else if Raw(p, key).Text? then Present(Raw(p, key))
      else Present(Text(show(Raw(p, key))))
    case VectorField =>
      if Has(p, key) && Raw(p, key).Vector? then Present(Raw(p, key)) else Absent
    case ColorField =>
      if Has(p, key) && Raw(p, key).Color? then Present(Raw(p, key)) else Absent
    case OtherField =>
      if Has(p, key) then Present(Raw(p, key)) else Absent
  }

  /** `isUnset`: null, or the zero value of a primitive field. */
  predicate IsUnset(cur: Value, t: FieldType)
  {
    || cur == Null
    || (t.BoolField? && t.primitive && cur == Bool(false))
    || (t.NumberField? && t.primitive &&
         match t.kind
         case IntKind => cur == Int(0)
         case LongKind => cur == Long(0)
         case FloatKind => cur == Float(0.0)
         case DoubleKind => cur == Double(0.0))
  }

  // ------------------------------------------------------------ binding

  /** The value a field holds after binding: the extracted value if there is
    * one; otherwise the default, for an unset field that has one; otherwise
    * the current value. A field is written exactly when this differs from
    * its current value. */
  function NewValue(b: FieldBinding, cur: Value, params: Option<EvaluatedParams>, parse: NumberParser, show: Stringifier): Value
  {
    var e := if params.None? then Absent else Extract(b, params.value, parse, show);
    if e.Present? then e.value
    else if b.hasDefault && IsUnset(cur, b.fieldType) then b.default
    else cur
  }

  /** Every field after binding. */
  function BoundFields(schema: seq<FieldBinding>, fields: seq<Value>, params: Option<EvaluatedParams>,
                       parse: NumberParser, show: Stringifier): (r: seq<Value>)
    requires |fields| == |schema|
    ensures |r| == |schema|
    ensures forall i :: 0 <= i < |schema| ==> r[i] == NewValue(schema[i], fields[i], params, parse, show)
  {
    seq(|schema|, i requires 0 <= i < |schema| => NewValue(schema[i], fields[i], params, parse, show))
  }

  /** Binding is idempotent: the extracted value does not depend on the
    * field, and a default written once is either still unset (so written
    * again, unchanged) or no longer unset. */
  lemma NewValueIdempotent(b: FieldBinding, cur: Value, params: Option<EvaluatedParams>, parse: NumberParser, show: Stringifier)
    ensures var once := NewValue(b, cur, params, parse, show);
      NewValue(b, once, params, parse, show) == once
  {
  }

  lemma {:induction false} BindTwiceChangesNothing(schema: seq<FieldBinding>, fields: seq<Value>, params: Option<EvaluatedParams>,
                                                   parse: NumberParser, show: Stringifier)
    requires |fields| == |schema|
    ensures var once := BoundFields(schema, fields, params, parse, show);
      BoundFields(schema, once, params, parse, show) == once
  {
    var once := BoundFields(schema, fields, params, parse, show);
    var twice := BoundFields(schema, once, params, parse, show);
    forall i | 0 <= i < |schema|
      ensures twice[i] == once[i]
    {
      NewValueIdempotent(schema[i], fields[i], params, parse, show);
    }
  }

  /** Without parameters (or without the field's key) only defaults apply:
    * an unset field with a default takes it, anything else is kept. */
  lemma AbsentKeepsOrDefaults(b: FieldBinding, cur: Value, params: Option<EvaluatedParams>, parse: NumberParser, show: Stringifier)
    requires params.None? || !Has(params.value, b.name)
    ensures NewValue(b, cur, params, parse, show) == if b.hasDefault && IsUnset(cur, b.fieldType) then b.default else cur
  {
  }

  /** Booleans are read from strings ignoring case, the long s included;
    * other strings are not booleans; a numeric string is parsed for a
    * number field but an empty one is not. */
  lemma ExtractionExamples(key: string, parse: NumberParser)
    ensures ExtractBool(EvaluatedParams(map[key := Text("TRUE")]), key) == Present(Bool(true))
    ensures ExtractBool(EvaluatedParams(map[key := Text("fAlSe")]), key) == Present(Bool(false))
    ensures ExtractBool(EvaluatedParams(map[key := Text("fal\U{017F}e")]), key) == Present(Bool(false))
    ensures ExtractBool(EvaluatedParams(map[key := Text("yes")]), key) == Absent
    ensures ExtractNumber(EvaluatedParams(map[key := Text("")]), key, IntKind, parse) == Absent
    ensures ExtractNumber(EvaluatedParams(map[key := Double(2.9)]), key, IntKind, parse) == Present(Int(2))
  {
    var p := EvaluatedParams(map[key := Text("yes")]);
    assert !EqualsIgnoreCase("yes", "true") && !EqualsIgnoreCase("yes", "false");
    assert Trunc(2.9) == 2;
  }

  /** An effect instance: the values of its annotated fields, in schema
    * order. */
  class EffectInstance {
    const schema: seq<FieldBinding>
    var fields: seq<Value>

    ghost predicate Valid()
      reads this
    {
      |fields| == |schema|
    }

    constructor (schema: seq<FieldBinding>, fields: seq<Value>)
      requires |fields| == |schema|
      ensures Valid() && this.schema == schema && this.fields == fields
    {
      this.schema := schema;
      this.fields := fields;
    }
  }

  /** `bindPropertiesAndDetectChanges`: a null instance reports no change;
    * otherwise every field is bound in schema order, a field is written only
    * when its new value differs, and the result says whether any field was
    * written. */
  method BindPropertiesAndDetectChanges(effect: EffectInstance?, params: Option<EvaluatedParams>,
                                        parse: NumberParser, show: Stringifier) returns (changed: bool)
    requires effect != null ==> effect.Valid()
    modifies effect
    ensures effect == null ==> !changed
    ensures effect != null ==> effect.Valid()
    ensures effect != null ==> effect.fields == BoundFields(effect.schema, old(effect.fields), params, parse, show)
    ensures effect != null ==> (changed <==> effect.fields != old(effect.fields))
  {
    if effect == null {
      return false;
    }
    changed := false;
    var i := 0;
    ghost var target := BoundFields(effect.schema, effect.fields, params, parse, show);
    ghost var before := effect.fields;
    while i < |effect.schema|
      invariant 0 <= i <= |effect.schema| && effect.Valid()
      invariant forall j :: 0 <= j < i ==> effect.fields[j] == target[j]
      invariant forall j :: i <= j < |effect.schema| ==> effect.fields[j] == before[j]
      invariant changed <==> exists j :: 0 <= j < i && target[j] != before[j]
    {
      var b := effect.schema[i];
      var current := effect.fields[i];
      var newValue := if params.None? then Absent else Extract(b, params.value, parse, show);
      var written := current;
      if newValue.Present? {
        written := newValue.value;
      } else if b.hasDefault && IsUnset(current, b.fieldType) {
        written := b.default;
      }
      assert written == target[i];
      if written != current {
        effect.fields := effect.fields[i := written];
        changed := true;
      }
      i := i + 1;
    }
    assert effect.fields == target;
    if !changed {
      assert target == before;
    }
  }

  // -------------------------------------------------------- AnimatedEffect

  /** A particle an effect's `render` emits: `add(pos, type)` without a
    * velocity, `add(pos, type, velocity)` with one. */
  datatype Emission = Emission(pos: Vec3, particleType: ParticleType, velocity: Option<Vec3>)

  function VertexOf(e: Emission): Vertex
  {
    Vertex(e.pos, Some(e.particleType), e.velocity, None)
  }

  function VerticesOf(es: seq<Emission>): (r: seq<Vertex>)
    ensures |r| == |es| && forall i :: 0 <= i < |es| ==> r[i] == VertexOf(es[i])
  {
    seq(|es|, i requires 0 <= i < |es| => VertexOf(es[i]))
  }

  /** `render` of a concrete effect: the particles it emits for the current
    * field values. */
  type Renderer = seq<Value> -> seq<Emission>

  /** The render-or-skip rule of `sample`. */
  predicate ShouldRender(changed: bool, usesContext: bool, hasRenderedOnce: bool)
  {
    changed || usesContext || !hasRenderedOnce
  }

  /** Sampling twice with the same parameters: the second bind changes
    * nothing, so an effect that has rendered and does not use the context
    * skips its second render. */
  lemma SecondSampleSkips(schema: seq<FieldBinding>, fields: seq<Value>, params: Option<EvaluatedParams>,
                          parse: NumberParser, show: Stringifier)
    requires |fields| == |schema|
    ensures var once := BoundFields(schema, fields, params, parse, show);
      !ShouldRender(BoundFields(schema, once, params, parse, show) != once, false, true)
  {
    BindTwiceChangesNothing(schema, fields, params, parse, show);
  }

  /** The library conversions binding relies on. */
  datatype Library = Library(parse: NumberParser, show: Stringifier)

  /** An `AnimatedEffect`: the annotated fields, its `render`, whether it
    * uses the sampling context, and whether it has rendered yet. */
  class AnimatedEffect {
    const instance: EffectInstance
    const render: Renderer
    const usesContext: bool
    var hasRenderedOnce: bool
    /** The number of `render` calls so far. */
    var renders: nat

    constructor (instance: EffectInstance, render: Renderer, usesContext: bool)
      ensures this.instance == instance && this.render == render && this.usesContext == usesContext
      ensures !hasRenderedOnce && renders == 0
    {
      this.instance := instance;
      this.render := render;
      this.usesContext := usesContext;
      hasRenderedOnce := false;
      renders := 0;
    }

    /** `sample`: binding runs on every call; the buffer is cleared and the
      * effect rendered into it only when a field changed, the effect uses
      * the context, or it has never rendered; otherwise the buffer is left
      * untouched. */
    method Sample(params: Option<EvaluatedParams>, out: PooledParticleBuffer, lib: Library)
      requires instance.Valid() && out.Valid()
      modifies this, instance, out
      ensures instance.Valid() && out.Valid()
      ensures instance.fields == BoundFields(instance.schema, old(instance.fields), params, lib.parse, lib.show)
      ensures var rendered := ShouldRender(instance.fields != old(instance.fields), usesContext, old(hasRenderedOnce));
        && (rendered ==> out.View() == VerticesOf(render(instance.fields)) && hasRenderedOnce && renders == old(renders) + 1)
        && (!rendered ==> out.pool == old(out.pool) && out.active == old(out.active)
                          && hasRenderedOnce == old(hasRenderedOnce) && renders == old(renders))
    {
      var changed := BindPropertiesAndDetectChanges(instance, params, lib.parse, lib.show);
      if !(changed || usesContext || !hasRenderedOnce) {
        return;
      }
      out.Clear();
      var emitted := render(instance.fields);
      var i := 0;
      while i < |emitted|
        invariant 0 <= i <= |emitted| && out.Valid()
        invariant out.View() == VerticesOf(emitted[..i])
        invariant instance.fields == BoundFields(instance.schema, old(instance.fields), params, lib.parse, lib.show)
        invariant instance.Valid()
        invariant renders == old(renders)
      {
        var e := emitted[i];
        if e.velocity.None? {
          out.Add(e.pos, e.particleType);
        } else {
          out.AddWithVelocity(e.pos, e.particleType, e.velocity);
        }
        assert emitted[..i + 1] == emitted[..i] + [e];
        i := i + 1;
      }
      assert emitted[..|emitted|] == emitted;
      renders := renders + 1;
      hasRenderedOnce := true;
    }
  }
}
