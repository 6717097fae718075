/** The part of zod that the schema files use, as a small schema language and
    one acceptance predicate.

    `Accepts(s, v)` says whether `s.safeParse(v)` succeeds, where `v == None`
    stands for `undefined` (an absent object member).  Objects follow zod's
    default, non-strict behaviour: every key of the shape is checked against
    the member at that key (absent or not), and keys outside the shape are
    ignored.
 */
module Zod {
  import opened Json

  datatype Schema =
    | ZString                              // z.string()
    | ZNumber                              // z.number()
    | ZBoolean                             // z.boolean()
    | ZLiteral(lit: string)                // z.literal("...")
    | ZUnknown                             // z.unknown(): anything, undefined included
    | ZOptional(inner: Schema)             // inner.optional()
    | ZUnion(first: Schema, second: Schema) // z.union([first, second])
    | ZArray(element: Schema)              // z.array(element)
    | ZRecord(value: Schema)               // z.record(value)
    | ZObject(shape: map<string, Schema>)  // z.object(shape)

  /** z.object({}): any object at all, since unknown keys are ignored. */
  const EmptyObject: Schema := ZObject(map[])

  predicate Accepts(s: Schema, v: Option<Json>)
    decreases s
  {
    match s
    case ZString => IsString(v)
    case ZNumber => IsNumber(v)
    case ZBoolean => IsBool(v)
    case ZLiteral(lit) => v == Some(JString(lit))
    case ZUnknown => true
    case ZOptional(inner) => v.None? || Accepts(inner, v)
    case ZUnion(first, second) => Accepts(first, v) || Accepts(second, v)
    case ZArray(element) =>
      && v.Some? && v.value.JArray?
      && forall i :: 0 <= i < |v.value.items| ==> Accepts(element, Some(v.value.items[i]))
    case ZRecord(value) =>
      && IsObject(v)
      && forall k :: k in v.value.fields ==> Accepts(value, Some(v.value.fields[k]))
    case ZObject(shape) =>
      && IsObject(v)
      && forall k :: k in shape ==> Accepts(shape[k], Member(v.value, k))
  }

  /** z.object({}) accepts exactly the objects. */
  lemma EmptyObjectAcceptsObjects(v: Option<Json>)
    ensures Accepts(EmptyObject, v) <==> IsObject(v)
  {
  }

  /** z.record(z.object({})) accepts exactly the objects whose members are
      all objects. */
  lemma RecordOfObjects(v: Option<Json>)
    ensures Accepts(ZRecord(EmptyObject), v) <==> IsObjectOfObjects(v)
  {
  }

  /** `s.parse(j)` succeeds on a whole JSON document `j`. */
  predicate Valid(s: Schema, j: Json) {
    Accepts(s, Some(j))
  }

  /** `base.extend(ext)`: the shape `{...base.shape, ...ext}`, where a key of
      `ext` replaces the same key of `base`. */
  function Extend(base: Schema, ext: map<string, Schema>): (r: Schema)
    requires base.ZObject?
    ensures r.ZObject?
    ensures r.shape.Keys == base.shape.Keys + ext.Keys
    ensures forall k :: k in ext ==> r.shape[k] == ext[k]
    ensures forall k :: k in base.shape && k !in ext ==> r.shape[k] == base.shape[k]
  {
    ZObject(base.shape + ext)
  }

  /** Every value `a` accepts, `b` accepts too. */
  ghost predicate Refines(a: Schema, b: Schema) {
    forall v :: Accepts(a, v) ==> Accepts(b, v)
  }

  /** A literal string is in particular a string. */
  lemma LiteralRefinesString(lit: string)
    ensures Refines(ZLiteral(lit), ZString)
  {
  }

  /** `z.unknown().optional()` accepts whatever any schema accepts. */
  lemma RefinesOptionalUnknown(s: Schema)
    ensures Refines(s, ZOptional(ZUnknown))
  {
  }

  lemma RefinesReflexive(s: Schema)
    ensures Refines(s, s)
  {
  }

  /** Width and depth subtyping of non-strict objects: an object schema with
      more keys, each at least as demanding, accepts only what the smaller
      schema accepts. */
  lemma ShapeRefines(a: Schema, b: Schema)
    requires a.ZObject? && b.ZObject?
    requires b.shape.Keys <= a.shape.Keys
    requires forall k :: k in b.shape ==> Refines(a.shape[k], b.shape[k])
    ensures Refines(a, b)
  {
    forall v | Accepts(a, v)
      ensures Accepts(b, v)
    {
      forall k | k in b.shape
        ensures Accepts(b.shape[k], Member(v.value, k))
      {
        assert Accepts(a.shape[k], Member(v.value, k));
      }
    }
  }

  /** `.extend(ext)` only narrows: when every replaced key is replaced by a
      schema that refines the one it replaces, everything the extended schema
      accepts the base accepts too. */
  lemma ExtendRefines(base: Schema, ext: map<string, Schema>)
    requires base.ZObject?
    requires forall k :: k in ext && k in base.shape ==> Refines(ext[k], base.shape[k])
    ensures Refines(Extend(base, ext), base)
  {
    var r := Extend(base, ext);
    forall k | k in base.shape
      ensures Refines(r.shape[k], base.shape[k])
    {
      if k !in ext {
        RefinesReflexive(base.shape[k]);
      }
    }
    ShapeRefines(r, base);
  }

  /** Non-strictness: adding or overwriting a key that the shape does not
      mention never changes the verdict. */
  lemma UnknownKeyIgnored(s: Schema, fields: map<string, Json>, k: string, x: Json)
    requires s.ZObject?
    requires k !in s.shape
    ensures Valid(s, JObject(fields[k := x])) <==> Valid(s, JObject(fields))
  {
    forall k' | k' in s.shape
      ensures Member(JObject(fields[k := x]), k') == Member(JObject(fields), k')
    {
    }
  }

  /** A key whose schema rejects `undefined` is required: an object without
      it is rejected. */
  lemma MissingRequiredKey(s: Schema, j: Json, k: string)
    requires s.ZObject?
    requires k in s.shape && !Accepts(s.shape[k], None)
    requires Member(j, k).None?
    ensures !Valid(s, j)
  {
  }

  /** A valid object's member at a shape key satisfies that key's schema. */
  lemma MemberAccepted(s: Schema, j: Json, k: string)
    requires s.ZObject? && k in s.shape
    requires Valid(s, j)
    ensures j.JObject?
    ensures Accepts(s.shape[k], Member(j, k))
  {
  }

  /** An object whose members at each key of a two-, three- or four-key
      shape satisfy that key's schema is accepted. */
  lemma ObjectOfTwo(s: Schema, j: Json, k1: string, k2: string)
    requires s.ZObject? && s.shape.Keys == {k1, k2}
    requires j.JObject?
    requires Accepts(s.shape[k1], Member(j, k1)) && Accepts(s.shape[k2], Member(j, k2))
    ensures Valid(s, j)
  {
  }

  lemma ObjectOfThree(s: Schema, j: Json, k1: string, k2: string, k3: string)
    requires s.ZObject? && s.shape.Keys == {k1, k2, k3}
    requires j.JObject?
    requires Accepts(s.shape[k1], Member(j, k1)) && Accepts(s.shape[k2], Member(j, k2))
    requires Accepts(s.shape[k3], Member(j, k3))
    ensures Valid(s, j)
  {
  }

  lemma ObjectOfFour(s: Schema, j: Json, k1: string, k2: string, k3: string, k4: string)
    requires s.ZObject? && s.shape.Keys == {k1, k2, k3, k4}
    requires j.JObject?
    requires Accepts(s.shape[k1], Member(j, k1)) && Accepts(s.shape[k2], Member(j, k2))
    requires Accepts(s.shape[k3], Member(j, k3)) && Accepts(s.shape[k4], Member(j, k4))
    ensures Valid(s, j)
  {
  }

  /** Objects carrying different string literals at the same key accept
      disjoint sets of documents. */
  lemma TagsDisjoint(a: Schema, b: Schema, k: string, j: Json)
    requires a.ZObject? && b.ZObject?
    requires k in a.shape && a.shape[k].ZLiteral?
    requires k in b.shape && b.shape[k].ZLiteral?
    requires a.shape[k].lit != b.shape[k].lit
    ensures !(Valid(a, j) && Valid(b, j))
  {
    if Valid(a, j) {
      assert Accepts(a.shape[k], Member(j, k));
    }
    if Valid(b, j) {
      assert Accepts(b.shape[k], Member(j, k));
    }
  }
}
