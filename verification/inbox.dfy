/**
 * The functional property "inbox": at most one of a nested
 * OrderedCollection, an IRI, or an unknown raw value, plus the alias
 * under which its key was resolved.
 */
module PropertyInbox {
  import opened Values
  import opened Ordering

  /** Name(): the property's name. */
  const Name := "inbox"

  /**
   * The nested OrderedCollection kind as seen from this property: the type
   * registry's deserializer (Some(v) when it returns a nil error) and the
   * collection's own Serialize, LessThan and JSONLDContext.
   */
  datatype CollectionKind<!C> = CollectionKind(
    deserialize: (map<string, Raw>, map<string, string>) -> Option<C>,
    serialize: C -> Result<Raw, Error>,
    less: (C, C) -> bool,
    context: C -> map<string, string>)

  class InboxProperty<C> {
    var orderedCollectionMember: Option<C>
    var unknown: Raw
    var iri: Option<Url>
    var alias: string

    /** At most one payload is populated. */
    ghost predicate Valid()
      reads this
    {
      && (orderedCollectionMember.Some? ==> iri.None? && unknown == Null)
      && (iri.Some? ==> unknown == Null)
    }

    /** No payload is populated. */
    ghost predicate IsEmpty()
      reads this
    {
      orderedCollectionMember.None? && iri.None? && unknown == Null
    }

    /** NewInboxProperty: a property holding nothing, with no alias. */
    constructor ()
      ensures Valid() && IsEmpty() && alias == ""
    {
      orderedCollectionMember, unknown, iri, alias := None, Null, None, "";
    }

    /** A struct literal naming every field. */
    constructor Literal(member: Option<C>, unknown: Raw, iri: Option<Url>, alias: string)
      ensures this.orderedCollectionMember == member && this.unknown == unknown
      ensures this.iri == iri && this.alias == alias
    {
      this.orderedCollectionMember, this.unknown, this.iri, this.alias := member, unknown, iri, alias;
    }

    /** The collection; nil exactly when IsOrderedCollection is false. */
    function Get(): (r: Option<C>)
      reads this
      ensures r.Some? <==> IsOrderedCollection()
      ensures r.Some? && !IsIRI() ==> Rank() == ValueRank(r.value)
    {
      orderedCollectionMember
    }

    /** The IRI; nil exactly when IsIRI is false. */
    function GetIRI(): (r: Option<Url>)
      reads this
      ensures r.Some? <==> IsIRI()
      ensures r.Some? ==> Rank() == IriRank(r.value.text)
    {
      iri
    }

    /** True when a collection is set; in a valid property it is then not an IRI. */
    function IsOrderedCollection(): (r: bool)
      reads this
      ensures r <==> orderedCollectionMember.Some?
      ensures r && Valid() ==> iri.None? && unknown == Null
    {
      orderedCollectionMember.Some?
    }

    /** True when an IRI is set; in a valid property nothing else is then set. */
    function IsIRI(): (r: bool)
      reads this
      ensures r <==> iri.Some?
      ensures r && Valid() ==> orderedCollectionMember.None? && unknown == Null
    {
      iri.Some?
    }

    /** True when a value or an IRI is set; an unknown value alone does not count. */
    function HasAny(): (r: bool)
      reads this
      ensures r <==> KindIndex() != -1
    {
      IsOrderedCollection() || iri.Some?
    }

    /** 0 for a value, -2 for an IRI, -1 otherwise; the value wins if both are set. */
    function KindIndex(): (k: int)
      reads this
      ensures k == 0 <==> IsOrderedCollection()
      ensures k == -2 <==> IsIRI() && !IsOrderedCollection()
      ensures k == -1 <==> !IsIRI() && !IsOrderedCollection()
    {
      if IsOrderedCollection() then 0
      else if IsIRI() then -2
      else -1
    }

    /** Where this instance sorts. */
    function Rank(): Rank<C>
      reads this
    {
      if IsIRI() then IriRank(iri.value.text)
      else if IsOrderedCollection() then ValueRank(orderedCollectionMember.value)
      else NoValue
    }

    /**
     * The comparison ladder as written: IRIs by their string form, an IRI
     * below everything else, two non-values tied, a non-value below a value,
     * two values by the collection's own LessThan.
     */
    function LessThan(o: InboxProperty<C>, collection: CollectionKind<C>): (r: bool)
      reads this, o
      ensures r == RankLess(Rank(), o.Rank(), collection.less)
    {
      if IsIRI() && o.IsIRI() then LexLess(iri.value.text, o.GetIRI().value.text)
      else if IsIRI() then true
      else if o.IsIRI() then false
      else if !IsOrderedCollection() && !o.IsOrderedCollection() then false
      else if IsOrderedCollection() && !o.IsOrderedCollection() then false
      else if !IsOrderedCollection() && o.IsOrderedCollection() then true
      else collection.less(Get().value, o.Get().value)
    }

    /** The raw value written back: the collection's own form, the IRI's string form, or the unknown value. */
    function Serialize(collection: CollectionKind<C>): (r: Result<Raw, Error>)
      reads this
      ensures KindIndex() == 0 ==> r == collection.serialize(orderedCollectionMember.value)
      ensures KindIndex() == -2 ==> r == Success(Str(iri.value.text))
      ensures KindIndex() == -1 ==> r == Success(unknown)
    {
      if IsOrderedCollection() then collection.serialize(Get().value)
      else if IsIRI() then Success(Str(iri.value.text))
      else Success(unknown)
    }

    /** The nested collection's context requirements, none without a value. */
    function ChildContext(collection: CollectionKind<C>): (r: map<string, string>)
      reads this
      ensures !IsOrderedCollection() ==> r == map[]
      ensures IsOrderedCollection() ==> r == collection.context(orderedCollectionMember.value)
    {
      if IsOrderedCollection() then collection.context(Get().value) else map[]
    }

    method Clear()
      modifies this
      ensures Valid() && IsEmpty() && alias == old(alias)
      ensures !HasAny() && !IsIRI() && !IsOrderedCollection()
      ensures forall collection: CollectionKind<C> :: Serialize(collection) == Success(Null)
      ensures old(IsEmpty()) ==> unchanged(this)
    {
      unknown := Null;
      iri := None;
      orderedCollectionMember := None;
    }

    method Set(v: Option<C>)
      modifies this
      ensures Valid() && orderedCollectionMember == v && iri.None? && unknown == Null
      ensures alias == old(alias)
      ensures v.Some? ==> IsOrderedCollection() && !IsIRI() && Get() == v
    {
      Clear();
      orderedCollectionMember := v;
    }

    method SetIRI(v: Option<Url>)
      modifies this
      ensures Valid() && iri == v && orderedCollectionMember.None? && unknown == Null
      ensures alias == old(alias)
      ensures v.Some? ==> IsIRI() && !IsOrderedCollection() && GetIRI() == v
    {
      Clear();
      iri := v;
    }

    /**
     * The context map: the ActivityStreams namespace mapped to the alias,
     * with the nested collection's entries copied over it.
     */
    method JSONLDContext(collection: CollectionKind<C>) returns (m: map<string, string>)
      ensures m == MergedContext(alias, ChildContext(collection))
      ensures ActivityStreamsNamespace in m
      ensures !IsOrderedCollection() ==> m == map[ActivityStreamsNamespace := alias]
    {
      m := map[ActivityStreamsNamespace := alias];
      var child: map<string, string> := map[];
      if IsOrderedCollection() {
        child := collection.context(Get().value);
      }
      m := CopyEntries(m, child);
    }
  }

  /** No instance is less than itself when the collection order is irreflexive. */
  lemma LessThanIrreflexive<C(!new)>(a: InboxProperty<C>, collection: CollectionKind<C>)
    requires Irreflexive(collection.less)
    ensures !a.LessThan(a, collection)
  {
    RankLessIrreflexive(a.Rank(), collection.less);
  }

  /** LessThan is transitive over instances when the collection order is. */
  lemma LessThanTransitive<C(!new)>(a: InboxProperty<C>, b: InboxProperty<C>, c: InboxProperty<C>, collection: CollectionKind<C>)
    requires Transitive(collection.less)
    requires a.LessThan(b, collection) && b.LessThan(c, collection)
    ensures a.LessThan(c, collection)
  {
    RankLessTransitive(a.Rank(), b.Rank(), c.Rank(), collection.less);
  }

  /** Incomparability of instances is transitive when it is for the collection order. */
  lemma LessThanNegativelyTransitive<C(!new)>(a: InboxProperty<C>, b: InboxProperty<C>, c: InboxProperty<C>, collection: CollectionKind<C>)
    requires NegativelyTransitive(collection.less)
    requires a.LessThan(c, collection)
    ensures a.LessThan(b, collection) || b.LessThan(c, collection)
  {
    RankLessNegativelyTransitive(a.Rank(), b.Rank(), c.Rank(), collection.less);
  }

  /**
   * Reads "inbox" (or "alias:inbox") from m: absent gives no property;
   * present gives an IRI for a string with a scheme, else a collection the
   * registry accepts from a JSON object, else the raw value kept verbatim.
   */
  method DeserializeInboxProperty<C>(m: map<string, Raw>, aliasMap: map<string, string>,
                                     collection: CollectionKind<C>, parse: UrlParser)
    returns (p: InboxProperty?<C>, err: Option<Error>)
    ensures err == None
    ensures p == null <==> PropertyKey(aliasMap, Name) !in m
    ensures p != null ==> fresh(p) && p.Valid() && p.alias == ResolvedAlias(aliasMap)
    ensures p != null ==>
      var i := m[PropertyKey(aliasMap, Name)];
      && p.iri == SchemeIri(i, parse)
      && (p.iri.None? && i.Obj? ==> p.orderedCollectionMember == collection.deserialize(i.fields, aliasMap))
      && (p.iri.None? && !i.Obj? ==> p.orderedCollectionMember.None?)
      && (!p.HasAny() ==> p.unknown == i && p.Serialize(collection) == Success(i))
  {
    var alias := ResolvedAlias(aliasMap);
    var propName := PropertyKey(aliasMap, Name);
    if propName in m {
      var i := m[propName];
      if i.Str? {
        var u := parse(i.s);
        if u.Some? && |u.value.scheme| > 0 {
          p := new InboxProperty.Literal(None, Null, u, alias);
          return p, None;
        }
      }
      if i.Obj? {
        var v := collection.deserialize(i.fields, aliasMap);
        if v.Some? {
          p := new InboxProperty.Literal(v, Null, None, alias);
          return p, None;
        }
      }
      p := new InboxProperty.Literal(None, i, None, alias);
      return p, None;
    }
    return null, None;
  }
}
