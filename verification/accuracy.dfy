/**
 * The functional property "accuracy": at most one of a float, an IRI, or
 * an unknown raw value, plus the alias under which its key was resolved.
 * The float is kept in a field of its own beside a flag that says whether
 * it is set, so clearing the flag leaves the last number in place.
 */
module PropertyAccuracy {
  import opened Values
  import opened Ordering

  /** Name(): the property's name. */
  const Name := "accuracy"

  /** A float64 by its IEEE 754 bit pattern; Float64(0) is Go's zero value +0.0. */
  datatype Float64 = Float64(bits: bv64)

  /**
   * The float codec: DeserializeFloat (Some(v) when it returns a nil
   * error), SerializeFloat and LessFloat.
   */
  datatype FloatCodec = FloatCodec(
    deserialize: Raw -> Option<Float64>,
    serialize: Float64 -> Result<Raw, Error>,
    less: (Float64, Float64) -> bool)

  class AccuracyProperty {
    var floatMember: Float64
    var hasFloatMember: bool
    var unknown: Raw
    var iri: Option<Url>
    var alias: string

    /** At most one payload is populated. */
    ghost predicate Valid()
      reads this
    {
      && (hasFloatMember ==> iri.None? && unknown == Null)
      && (iri.Some? ==> unknown == Null)
    }

    /** No payload is populated (floatMember may still hold an old number). */
    ghost predicate IsEmpty()
      reads this
    {
      !hasFloatMember && iri.None? && unknown == Null
    }

    /** NewAccuracyProperty: a property holding nothing, with no alias. */
    constructor ()
      ensures Valid() && IsEmpty() && alias == "" && floatMember == Float64(0)
    {
      floatMember, hasFloatMember, unknown, iri, alias := Float64(0), false, Null, None, "";
    }

    /** A struct literal naming every field. */
    constructor Literal(floatMember: Float64, hasFloatMember: bool, unknown: Raw, iri: Option<Url>, alias: string)
      ensures this.floatMember == floatMember && this.hasFloatMember == hasFloatMember
      ensures this.unknown == unknown && this.iri == iri && this.alias == alias
    {
      this.floatMember, this.hasFloatMember := floatMember, hasFloatMember;
      this.unknown, this.iri, this.alias := unknown, iri, alias;
    }

    /** The float; any number when IsFloat() is false. */
    function Get(): (r: Float64)
      reads this
      ensures IsFloat() && !IsIRI() ==> Rank() == ValueRank(r)
    {
      floatMember
    }

    /** The IRI; nil exactly when IsIRI is false. */
    function GetIRI(): (r: Option<Url>)
      reads this
      ensures r.Some? <==> IsIRI()
      ensures r.Some? ==> Rank() == IriRank(r.value.text)
    {
      iri
    }

    /** True when a float is set; in a valid property it is then not an IRI. */
    function IsFloat(): (r: bool)
      reads this
      ensures r <==> hasFloatMember
      ensures r && Valid() ==> iri.None? && unknown == Null
    {
      hasFloatMember
    }

    /** True when an IRI is set; in a valid property nothing else is then set. */
    function IsIRI(): (r: bool)
      reads this
      ensures r <==> iri.Some?
      ensures r && Valid() ==> !hasFloatMember && unknown == Null
    {
      iri.Some?
    }

    /** True when a float or an IRI is set; an unknown value alone does not count. */
    function HasAny(): (r: bool)
      reads this
      ensures r <==> KindIndex() != -1
    {
      IsFloat() || iri.Some?
    }

    /** 0 for a float, -2 for an IRI, -1 otherwise; the float wins if both are set. */
    function KindIndex(): (k: int)
      reads this
      ensures k == 0 <==> IsFloat()
      ensures k == -2 <==> IsIRI() && !IsFloat()
      ensures k == -1 <==> !IsIRI() && !IsFloat()
    {
      if IsFloat() then 0
      else if IsIRI() then -2
      else -1
    }

    /** Where this instance sorts. */
    function Rank(): Rank<Float64>
      reads this
    {
      if IsIRI() then IriRank(iri.value.text)
      else if IsFloat() then ValueRank(floatMember)
      else NoValue
    }

    /**
     * The comparison ladder as written: IRIs by their string form, an IRI
     * below everything else, two non-floats tied, a non-float below a float,
     * two floats by LessFloat.
     */
    function LessThan(o: AccuracyProperty, codec: FloatCodec): (r: bool)
      reads this, o
      ensures r == RankLess(Rank(), o.Rank(), codec.less)
    {
      if IsIRI() && o.IsIRI() then LexLess(iri.value.text, o.GetIRI().value.text)
      else if IsIRI() then true
      else if o.IsIRI() then false
      else if !IsFloat() && !o.IsFloat() then false
      else if IsFloat() && !o.IsFloat() then false
      else if !IsFloat() && o.IsFloat() then true
      else codec.less(Get(), o.Get())
    }

    /** The raw value written back: SerializeFloat's output, the IRI's string form, or the unknown value. */
    function Serialize(codec: FloatCodec): (r: Result<Raw, Error>)
      reads this
      ensures KindIndex() == 0 ==> r == codec.serialize(floatMember)
      ensures KindIndex() == -2 ==> r == Success(Str(iri.value.text))
      ensures KindIndex() == -1 ==> r == Success(unknown)
    {
      if IsFloat() then codec.serialize(Get())
      else if IsIRI() then Success(Str(iri.value.text))
      else Success(unknown)
    }

    /** Clears the flag, the IRI and the unknown value; the number stays in floatMember. */
    method Clear()
      modifies this
      ensures Valid() && IsEmpty() && alias == old(alias)
      ensures floatMember == old(floatMember) && Get() == old(Get())
      ensures !HasAny() && !IsIRI() && !IsFloat()
      ensures forall codec: FloatCodec :: Serialize(codec) == Success(Null)
      ensures old(IsEmpty()) ==> unchanged(this)
    {
      unknown := Null;
      iri := None;
      hasFloatMember := false;
    }

    method Set(v: Float64)
      modifies this
      ensures Valid() && floatMember == v && hasFloatMember && iri.None? && unknown == Null
      ensures alias == old(alias)
      ensures IsFloat() && !IsIRI() && Get() == v
    {
      Clear();
      floatMember := v;
      hasFloatMember := true;
    }

    method SetIRI(v: Option<Url>)
      modifies this
      ensures Valid() && iri == v && !hasFloatMember && unknown == Null
      ensures alias == old(alias) && floatMember == old(floatMember)
      ensures v.Some? ==> IsIRI() && !IsFloat() && GetIRI() == v
    {
      Clear();
      iri := v;
    }

    /**
     * The context map: the ActivityStreams namespace mapped to the alias.
     * A float has no context of its own, so the copy loop has nothing to copy.
     */
    method JSONLDContext() returns (m: map<string, string>)
      ensures m == map[ActivityStreamsNamespace := alias]
    {
      m := map[ActivityStreamsNamespace := alias];
      var child: map<string, string> := map[];
      m := CopyEntries(m, child);
    }
  }

  /** No instance is less than itself when the float order is irreflexive. */
  lemma LessThanIrreflexive(a: AccuracyProperty, codec: FloatCodec)
    requires Irreflexive(codec.less)
    ensures !a.LessThan(a, codec)
  {
    RankLessIrreflexive(a.Rank(), codec.less);
  }

  /** LessThan is transitive over instances when the float order is. */
  lemma LessThanTransitive(a: AccuracyProperty, b: AccuracyProperty, c: AccuracyProperty, codec: FloatCodec)
    requires Transitive(codec.less)
    requires a.LessThan(b, codec) && b.LessThan(c, codec)
    ensures a.LessThan(c, codec)
  {
    RankLessTransitive(a.Rank(), b.Rank(), c.Rank(), codec.less);
  }

  /** Incomparability of instances is transitive when it is for the float order. */
  lemma LessThanNegativelyTransitive(a: AccuracyProperty, b: AccuracyProperty, c: AccuracyProperty, codec: FloatCodec)
    requires NegativelyTransitive(codec.less)
    requires a.LessThan(c, codec)
    ensures a.LessThan(b, codec) || b.LessThan(c, codec)
  {
    RankLessNegativelyTransitive(a.Rank(), b.Rank(), c.Rank(), codec.less);
  }

  /**
   * Reads "accuracy" (or "alias:accuracy") from m: absent gives no
   * property; present gives an IRI for a string with a scheme, else a float
   * when the codec accepts the raw value (whatever its shape), else the raw
   * value kept verbatim.
   */
  method DeserializeAccuracyProperty(m: map<string, Raw>, aliasMap: map<string, string>,
                                     codec: FloatCodec, parse: UrlParser)
    returns (p: AccuracyProperty?, err: Option<Error>)
    ensures err == None
    ensures p == null <==> PropertyKey(aliasMap, Name) !in m
    ensures p != null ==> fresh(p) && p.Valid() && p.alias == ResolvedAlias(aliasMap)
    ensures p != null ==>
      var i := m[PropertyKey(aliasMap, Name)];
      && p.iri == SchemeIri(i, parse)
      && (p.iri.None? ==> p.hasFloatMember == codec.deserialize(i).Some?)
      && (p.IsFloat() ==> Some(p.floatMember) == codec.deserialize(i))
      && (!p.HasAny() ==> p.unknown == i && p.Serialize(codec) == Success(i))
    ensures p != null && !p.IsFloat() ==> p.floatMember == Float64(0)
  {
    var alias := ResolvedAlias(aliasMap);
    var propName := PropertyKey(aliasMap, Name);
    if propName in m {
      var i := m[propName];
      if i.Str? {
        var u := parse(i.s);
        if u.Some? && |u.value.scheme| > 0 {
          p := new AccuracyProperty.Literal(Float64(0), false, Null, u, alias);
          return p, None;
        }
      }
      var v := codec.deserialize(i);
      if v.Some? {
        p := new AccuracyProperty.Literal(v.value, true, Null, None, alias);
        return p, None;
      }
      p := new AccuracyProperty.Literal(Float64(0), false, i, None, alias);
      return p, None;
    }
    return null, None;
  }
}
