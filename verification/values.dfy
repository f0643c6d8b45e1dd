/**
 * Values shared by every generated functional property: the raw document
 * value that JSON unmarshalling hands over, the parsed IRI, the
 * ActivityStreams namespace, key resolution under an alias, and the
 * copy loop that fills a JSON-LD context map.
 */
module Values {

  datatype Option<T> = None | Some(value: T)

  /** A value and a nil error, or an error. */
  datatype Result<T, E> = Success(value: T) | Failure(error: E)

  /** An error raised by a collaborator; its causes are outside the core. */
  datatype Error = Error(reason: string)

  /**
   * A raw document value, Go's `interface{}` as unmarshalled from JSON:
   * nil, a string, a JSON object, or any other shape (numbers, booleans,
   * arrays), which the core never looks inside.
   */
  datatype Raw = Null | Str(s: string) | Obj(fields: map<string, Raw>) | Other(shape: nat)

  /** A parsed IRI: its scheme and its String() form. */
  datatype Url = Url(scheme: string, text: string)

  /** The URI parser: Some(u) when it returns a nil error. */
  type UrlParser = string -> Option<Url>

  const ActivityStreamsNamespace := "https://www.w3.org/TR/activitystreams-vocabulary"

  /** The alias under which the ActivityStreams namespace is in effect, "" when absent. */
  function ResolvedAlias(aliasMap: map<string, string>): (alias: string)
    ensures ActivityStreamsNamespace in aliasMap ==> alias == aliasMap[ActivityStreamsNamespace]
    ensures ActivityStreamsNamespace !in aliasMap ==> alias == ""
  {
    if ActivityStreamsNamespace in aliasMap then aliasMap[ActivityStreamsNamespace] else ""
  }

  /** The document key of property `name`: "alias:name" for a non-empty alias, else `name`. */
  function PropertyKey(aliasMap: map<string, string>, name: string): (key: string)
    ensures (ActivityStreamsNamespace in aliasMap && aliasMap[ActivityStreamsNamespace] != "")
      ==> key == aliasMap[ActivityStreamsNamespace] + ":" + name
    ensures (ActivityStreamsNamespace !in aliasMap || aliasMap[ActivityStreamsNamespace] == "")
      ==> key == name
  {
    var alias := ResolvedAlias(aliasMap);
    if |alias| > 0 then alias + ":" + name else name
  }

  /**
   * The key determines the stored alias: two alias maps that resolve the
   * same key for a property store the same alias in it.
   */
  lemma {:induction false} PropertyKeyDeterminesAlias(aliasMap1: map<string, string>, aliasMap2: map<string, string>, name: string)
    requires PropertyKey(aliasMap1, name) == PropertyKey(aliasMap2, name)
    ensures ResolvedAlias(aliasMap1) == ResolvedAlias(aliasMap2)
  {
    var a1, a2 := ResolvedAlias(aliasMap1), ResolvedAlias(aliasMap2);
    var key := PropertyKey(aliasMap1, name);
    if |a1| > 0 && |a2| > 0 {
      assert |a1| == |a2|;
      assert a1 == key[..|a1|] == a2;
    }
  }

  /**
   * The IRI a raw value denotes: only a string that parses without error
   * and has a non-empty scheme is taken as an IRI.
   */
  function SchemeIri(i: Raw, parse: UrlParser): (u: Option<Url>)
    ensures u.Some? <==> i.Str? && parse(i.s).Some? && |parse(i.s).value.scheme| > 0
    ensures u.Some? ==> u == parse(i.s)
  {
    if i.Str? && parse(i.s).Some? && |parse(i.s).value.scheme| > 0 then parse(i.s) else None
  }

  /**
   * The context map a property reports: the ActivityStreams namespace
   * mapped to the property's alias, then every entry of the child's
   * context written over it.
   */
  function MergedContext(alias: string, child: map<string, string>): (m: map<string, string>)
    ensures m.Keys == {ActivityStreamsNamespace} + child.Keys
    ensures forall k :: k in child ==> m[k] == child[k]
    ensures ActivityStreamsNamespace !in child ==> m[ActivityStreamsNamespace] == alias
  {
    map[ActivityStreamsNamespace := alias] + child
  }

  /** The context-copy loop: writes every child entry into m, replacing any entry already there. */
  method CopyEntries(m: map<string, string>, child: map<string, string>) returns (r: map<string, string>)
    ensures r.Keys == m.Keys + child.Keys
    ensures forall k :: k in child ==> r[k] == child[k]
    ensures forall k :: k in m && k !in child ==> r[k] == m[k]
  {
    r := m;
    var pending := child.Keys;
    while pending != {}
      invariant pending <= child.Keys
      invariant r.Keys == m.Keys + (child.Keys - pending)
      invariant forall k :: k in child && k !in pending ==> r[k] == child[k]
      invariant forall k :: k in m && (k !in child || k in pending) ==> r[k] == m[k]
      decreases pending
    {
      var k :| k in pending;
      r := r[k := child[k]];
      pending := pending - {k};
    }
  }
}
