/**
 * Clients that use only the contracts of the two properties: the
 * end-to-end decode scenarios, the ordering asymmetry, and clearing twice.
 */
module Scenarios {
  import opened Values
  import opened Ordering
  import PropertyInbox
  import PropertyAccuracy

  /** A parser stub: strings starting "https:" get that scheme, others parse with no scheme. */
  function StubParse(s: string): Option<Url>
  {
    if |s| >= 6 && s[..6] == "https:" then Some(Url("https", s)) else Some(Url("", s))
  }

  method InboxDecodeScenarios<C>(collection: PropertyInbox.CollectionKind<C>)
    requires forall fields, aliasMap :: collection.deserialize(fields, aliasMap) == None
  {
    var noAliases: map<string, string> := map[];
    assert PropertyKey(noAliases, "inbox") == "inbox";

    // A string with a scheme is an IRI.
    var link := Str("https://example.com/inbox");
    var p, err := PropertyInbox.DeserializeInboxProperty(map["inbox" := link], noAliases, collection, StubParse);
    assert SchemeIri(link, StubParse).Some?;
    assert p != null && p.IsIRI() && !p.IsOrderedCollection();

    // An object no registered type accepts is kept verbatim and written back unchanged.
    var empty := Obj(map[]);
    var q, err2 := PropertyInbox.DeserializeInboxProperty(map["inbox" := empty], noAliases, collection, StubParse);
    assert q != null && !q.HasAny();
    assert q.Serialize(collection) == Success(empty);

    // An absent key gives no property at all.
    var r, err3 := PropertyInbox.DeserializeInboxProperty(map["outbox" := link], noAliases, collection, StubParse);
    assert r == null && err3 == None;
  }

  method AccuracyDecodeScenario(codec: PropertyAccuracy.FloatCodec, fortyTwo: PropertyAccuracy.Float64)
    requires codec.deserialize(Str("42")) == Some(fortyTwo)
  {
    var aliases := map[ActivityStreamsNamespace := "as"];
    assert PropertyKey(aliases, "accuracy") == "as:accuracy";

    // "42" parses with no scheme, so the float codec decides.
    var p, err := PropertyAccuracy.DeserializeAccuracyProperty(map["as:accuracy" := Str("42")], aliases, codec, StubParse);
    assert SchemeIri(Str("42"), StubParse) == None;
    assert p != null && p.IsFloat() && !p.IsIRI() && p.Get() == fortyTwo && p.alias == "as";
  }

  method OrderingScenario(codec: PropertyAccuracy.FloatCodec, x: PropertyAccuracy.Float64)
  {
    var link := new PropertyAccuracy.AccuracyProperty();
    link.SetIRI(Some(Url("a", "a://x")));
    var number := new PropertyAccuracy.AccuracyProperty();
    number.Set(x);
    assert link.LessThan(number, codec) && !number.LessThan(link, codec);

    var none1 := new PropertyAccuracy.AccuracyProperty();
    var none2 := new PropertyAccuracy.AccuracyProperty();
    assert !none1.LessThan(none2, codec) && !none2.LessThan(none1, codec);
  }

  method ClearTwiceScenario<C>(v: C)
  {
    var p := new PropertyInbox.InboxProperty<C>();
    p.Set(Some(v));
    p.Clear();
    var member, unknown, iri, alias := p.orderedCollectionMember, p.unknown, p.iri, p.alias;
    p.Clear();
    assert p.orderedCollectionMember == member && p.unknown == unknown;
    assert p.iri == iri && p.alias == alias;
  }
}
