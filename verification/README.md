# go-fed ActivityStreams functional properties, modelled in Dafny

go-fed generates one Go type per ActivityStreams property. A *functional*
property holds at most one payload. The payload is a value of the property's
designated kind, an IRI, or an "unknown" raw value kept for forward
compatibility. The property also stores the alias under which its document
key was resolved. This project models two instances of that generated
pattern:

- `inbox` (`PropertyInbox`, inbox.dfy). The value kind is a nested
  OrderedCollection. It is present exactly when the member pointer is non-nil.
- `accuracy` (`PropertyAccuracy`, accuracy.dfy). The value kind is a float64.
  It is held in `floatMember` beside a `hasFloatMember` flag.

Each property is a class. Its fields are the Go struct's fields. The
pointer-receiver mutators (`Clear`, `Set`, `SetIRI`) are methods that
`modify` the object. The value-receiver queries (`HasAny`, `IsIRI`,
`IsOrderedCollection`/`IsFloat`, `KindIndex`, `LessThan`, `Serialize`) are
functions that read it. `JSONLDContext` is a method, because the Go code fills
its map with a loop. Both `Deserialize...Property` functions are methods that
allocate a fresh object, or return null when the key is absent.

Shared pieces live in values.dfy (`Values`):
- the raw document value (Go's `interface{}`: nil, string, JSON object, any
  other shape);
- the parsed IRI;
- ActivityStreams key resolution (`alias:name` or `name`);
- the IRI test (parses, and has a non-empty scheme);
- the context-copy loop.

ordering.dfy (`Ordering`) holds Go's string order (`LexLess`) and a reference
definition of the comparison ladder, `RankLess`. `RankLess` ranks an instance
as IRI < no value < value. It breaks ties by the IRI text or by the value
kind's own order. Each `LessThan` is written as the source's ladder and is
proved equal to `RankLess`. `RankLess` is proved to be a strict weak order
whenever the value kind's order is one.

The collaborators are passed in as datatypes of total functions:
- `UrlParser` stands for `url.Parse`; `Url.text` is `URL.String()`.
- `CollectionKind` holds the type registry's OrderedCollection deserializer
  and the collection's `Serialize`, `LessThan` and `JSONLDContext`.
- `FloatCodec` holds `DeserializeFloat`, `SerializeFloat` and `LessFloat`.

A collaborator's "nil error" is `Some`/`Success`. Everything is in memory and
deterministic.

scenarios.dfy holds client methods that use only the contracts. They cover:
- a scheme-bearing string decodes to an IRI;
- `{}` with no matching registry entry stays unknown and re-encodes to `{}`;
- an absent key gives no property;
- `"42"` goes to the float codec, not to an IRI;
- an IRI sorts below a float, and two empty properties are tied;
- clearing twice is the same as clearing once.

In these details the model follows the code, where a reader might expect
otherwise:
- The `alias:name` key is used only when the alias is non-empty. An alias map
  that maps the namespace to `""` gives the bare name.
- `JSONLDContext` copies the child's entries with `m[k] = v`. A child entry
  for the ActivityStreams namespace therefore overrides the property's own
  alias; there is no insert-if-absent. `MergedContext` states this.
- The accuracy decoder gives the float codec every raw shape that is not a
  scheme-bearing string. It does not give it only primitive shapes.
- The IRI branch re-encodes as `URL.String()`, which need not equal the input
  string.

## Model

| member | source | states |
|---|---|---|
| Values.ResolvedAlias | streams/impl/activitystreams/property_inbox/gen_property_inbox.go:21-24 | the stored alias is the alias map's entry for the ActivityStreams namespace, or "" when there is none |
| Values.PropertyKey | streams/impl/activitystreams/property_inbox/gen_property_inbox.go:25-29 | the key is alias + ":" + name when the namespace maps to a non-empty alias, otherwise the bare name |
| Values.PropertyKeyDeterminesAlias | streams/impl/activitystreams/property_inbox/gen_property_inbox.go:26-29 | the key fixes the alias: two alias maps that resolve the same key for a name store the same alias |
| Values.SchemeIri | streams/impl/activitystreams/property_inbox/gen_property_inbox.go:31-35 | a raw value is an IRI exactly when it is a string that parses without error and has a non-empty scheme; the IRI is the parse result |
| Values.MergedContext | streams/impl/activitystreams/property_inbox/gen_property_inbox.go:104-118 | the context has the namespace key plus every child key; child entries win; the namespace maps to the alias unless the child overrides it |
| Values.CopyEntries | streams/impl/activitystreams/property_inbox/gen_property_inbox.go:115-117 | the copy loop yields the union of keys, the child's value for every child key and the old value for every other key |
| Ordering.LexLessIrreflexive | streams/impl/activitystreams/property_inbox/gen_property_inbox.go:141 | no IRI string is less than itself |
| Ordering.LexLessTransitive | streams/impl/activitystreams/property_inbox/gen_property_inbox.go:141 | the string order on IRIs is transitive |
| Ordering.LexLessTotal | streams/impl/activitystreams/property_inbox/gen_property_inbox.go:141 | of two different strings, one is less than the other |
| Ordering.RankLessIrreflexive | streams/impl/activitystreams/property_inbox/gen_property_inbox.go:138-163 | no instance is less than itself, given an irreflexive value order |
| Ordering.RankLessTransitive | streams/impl/activitystreams/property_inbox/gen_property_inbox.go:138-163 | the ladder is transitive, given a transitive value order |
| Ordering.RankLessNegativelyTransitive | streams/impl/activitystreams/property_inbox/gen_property_inbox.go:138-163 | incomparability is transitive, given the same of the value order |
| Ordering.RankLessStrictWeakOrder | streams/impl/activitystreams/property_inbox/gen_property_inbox.go:134-163 | the ladder is a strict weak order, a stable order for normalising, whenever the value kind's order is one |
| PropertyInbox.InboxProperty.constructor | streams/impl/activitystreams/property_inbox/gen_property_inbox.go:62-64 | a new property holds no payload and has alias "" |
| PropertyInbox.InboxProperty.Literal | streams/impl/activitystreams/property_inbox/gen_property_inbox.go:36-55 | the composite literal: the new property holds exactly the given member, unknown value, IRI and alias |
| PropertyInbox.InboxProperty.Get | streams/impl/activitystreams/property_inbox/gen_property_inbox.go:76-78 | the collection is present exactly when IsOrderedCollection holds, and it is what LessThan compares when no IRI is set |
| PropertyInbox.InboxProperty.GetIRI | streams/impl/activitystreams/property_inbox/gen_property_inbox.go:82-84 | the IRI is present exactly when IsIRI holds, and its string form is what LessThan compares |
| PropertyInbox.InboxProperty.IsIRI | streams/impl/activitystreams/property_inbox/gen_property_inbox.go:92-94 | IsIRI holds iff an IRI is set; in a valid property no collection and no unknown value are then set |
| PropertyInbox.InboxProperty.IsOrderedCollection | streams/impl/activitystreams/property_inbox/gen_property_inbox.go:97-99 | IsOrderedCollection holds iff a collection is set; in a valid property it is then not an IRI and holds no unknown value |
| PropertyInbox.InboxProperty.ChildContext | streams/impl/activitystreams/property_inbox/gen_property_inbox.go:106-109 | no child context without a collection; the collection's own JSONLDContext otherwise |
| PropertyInbox.LessThanIrreflexive | streams/impl/activitystreams/property_inbox/gen_property_inbox.go:138-163 | no inbox property is less than itself when the collection order is irreflexive |
| PropertyInbox.LessThanTransitive | streams/impl/activitystreams/property_inbox/gen_property_inbox.go:138-163 | LessThan over inbox properties is transitive when the collection order is |
| PropertyInbox.LessThanNegativelyTransitive | streams/impl/activitystreams/property_inbox/gen_property_inbox.go:138-163 | incomparability of inbox properties is transitive when it is for the collection order |
| PropertyInbox.InboxProperty.HasAny | streams/impl/activitystreams/property_inbox/gen_property_inbox.go:87-89 | HasAny holds iff KindIndex is not -1, so an unknown value alone does not count |
| PropertyInbox.InboxProperty.KindIndex | streams/impl/activitystreams/property_inbox/gen_property_inbox.go:124-132 | 0 iff a collection is set, -2 iff an IRI and no collection, -1 iff neither |
| PropertyInbox.InboxProperty.LessThan | streams/impl/activitystreams/property_inbox/gen_property_inbox.go:138-163 | the ladder as written equals the rank order: IRIs by string, IRI below all else, non-values tied, non-value below value, values by the collection's LessThan |
| PropertyInbox.InboxProperty.Serialize | streams/impl/activitystreams/property_inbox/gen_property_inbox.go:174-181 | dispatches on the kind: the collection's Serialize, the IRI's string form, or the unknown value unchanged |
| PropertyInbox.InboxProperty.Clear | streams/impl/activitystreams/property_inbox/gen_property_inbox.go:68-72 | afterwards nothing is set, HasAny/IsIRI/IsOrderedCollection are false, Serialize gives nil, the alias is kept; clearing an empty property changes nothing |
| PropertyInbox.InboxProperty.Set | streams/impl/activitystreams/property_inbox/gen_property_inbox.go:185-188 | clears, then stores v; for non-nil v IsOrderedCollection holds and IsIRI does not; the alias is kept and at most one payload is set |
| PropertyInbox.InboxProperty.SetIRI | streams/impl/activitystreams/property_inbox/gen_property_inbox.go:192-195 | clears, then stores the IRI; for non-nil v IsIRI holds, no collection and no unknown value remain; the alias is kept |
| PropertyInbox.InboxProperty.JSONLDContext | streams/impl/activitystreams/property_inbox/gen_property_inbox.go:104-119 | the map is {namespace: alias} with the collection's context copied over it; with no collection it is exactly {namespace: alias} |
| PropertyInbox.DeserializeInboxProperty | streams/impl/activitystreams/property_inbox/gen_property_inbox.go:20-59 | never an error; no property iff the key is absent; else a fresh property with the resolved alias holding the IRI, or else what the registry accepts from an object, or else the raw value, which Serialize returns unchanged |
| PropertyAccuracy.AccuracyProperty.constructor | streams/impl/activitystreams/property_accuracy/gen_property_accuracy.go:63-65 | a new property holds no payload, has alias "" and the zero float |
| PropertyAccuracy.AccuracyProperty.Literal | streams/impl/activitystreams/property_accuracy/gen_property_accuracy.go:38-56 | the composite literal: the new property holds exactly the given float, flag, unknown value, IRI and alias |
| PropertyAccuracy.AccuracyProperty.Get | streams/impl/activitystreams/property_accuracy/gen_property_accuracy.go:77-79 | the float is what LessThan compares when a float and no IRI is set |
| PropertyAccuracy.AccuracyProperty.GetIRI | streams/impl/activitystreams/property_accuracy/gen_property_accuracy.go:83-85 | the IRI is present exactly when IsIRI holds, and its string form is what LessThan compares |
| PropertyAccuracy.AccuracyProperty.IsFloat | streams/impl/activitystreams/property_accuracy/gen_property_accuracy.go:93-95 | IsFloat holds iff the flag is set; in a valid property it is then not an IRI and holds no unknown value |
| PropertyAccuracy.AccuracyProperty.IsIRI | streams/impl/activitystreams/property_accuracy/gen_property_accuracy.go:98-100 | IsIRI holds iff an IRI is set; in a valid property no float and no unknown value are then set |
| PropertyAccuracy.LessThanIrreflexive | streams/impl/activitystreams/property_accuracy/gen_property_accuracy.go:137-162 | no accuracy property is less than itself when LessFloat is irreflexive |
| PropertyAccuracy.LessThanTransitive | streams/impl/activitystreams/property_accuracy/gen_property_accuracy.go:137-162 | LessThan over accuracy properties is transitive when LessFloat is |
| PropertyAccuracy.LessThanNegativelyTransitive | streams/impl/activitystreams/property_accuracy/gen_property_accuracy.go:137-162 | incomparability of accuracy properties is transitive when it is for LessFloat |
| PropertyAccuracy.AccuracyProperty.HasAny | streams/impl/activitystreams/property_accuracy/gen_property_accuracy.go:88-90 | HasAny holds iff KindIndex is not -1, so an unknown value alone does not count |
| PropertyAccuracy.AccuracyProperty.KindIndex | streams/impl/activitystreams/property_accuracy/gen_property_accuracy.go:123-131 | 0 iff a float is set, -2 iff an IRI and no float, -1 iff neither |
| PropertyAccuracy.AccuracyProperty.LessThan | streams/impl/activitystreams/property_accuracy/gen_property_accuracy.go:137-162 | the ladder as written equals the rank order, with two floats compared by LessFloat |
| PropertyAccuracy.AccuracyProperty.Serialize | streams/impl/activitystreams/property_accuracy/gen_property_accuracy.go:173-180 | dispatches on the kind: SerializeFloat's output, the IRI's string form, or the unknown value unchanged |
| PropertyAccuracy.AccuracyProperty.Clear | streams/impl/activitystreams/property_accuracy/gen_property_accuracy.go:69-73 | resets the flag, the IRI and the unknown value but keeps floatMember, so Get returns the old number; Serialize gives nil; idempotent |
| PropertyAccuracy.AccuracyProperty.Set | streams/impl/activitystreams/property_accuracy/gen_property_accuracy.go:184-188 | for any v afterwards IsFloat holds, IsIRI does not and Get() == v; the alias is kept |
| PropertyAccuracy.AccuracyProperty.SetIRI | streams/impl/activitystreams/property_accuracy/gen_property_accuracy.go:192-195 | clears, then stores the IRI; for non-nil v IsIRI holds and IsFloat does not; the alias and floatMember are kept |
| PropertyAccuracy.AccuracyProperty.JSONLDContext | streams/impl/activitystreams/property_accuracy/gen_property_accuracy.go:105-118 | always exactly {namespace: alias}, whatever is set |
| PropertyAccuracy.DeserializeAccuracyProperty | streams/impl/activitystreams/property_accuracy/gen_property_accuracy.go:22-60 | never an error; no property iff the key is absent; else an IRI for a scheme-bearing string, even if the codec would take it, else a float when the codec accepts the raw value of any shape, else the raw value, which Serialize returns unchanged; outside the float outcome floatMember is the zero float |

## Left out

- `url.Parse` and `URL.String()` come from a foreign library. They are the
  abstract `UrlParser` and `Url.text`. Nothing is claimed about re-parsing
  the string form.
- float64 arithmetic and comparison come from the `float` value package, whose
  code is not part of this model. A float is an opaque bit pattern, and the
  codec is abstract. No IEEE behaviour (NaN, rounding) is modelled.
- The type registry and the OrderedCollection's own methods are abstract
  functions of the collection value. A registry that returns a nil collection
  with a nil error is not modelled: `Some` always carries a collection.
- Errors returned by the collection's or the float codec's `Serialize` are
  passed through as opaque `Error` values.
- `LessThan` takes an argument of the property's interface type in Go. The
  model takes another instance of the same class. Other implementations of
  that interface are not modelled.
- `OrderedCollectionMember` is an exported field, so outside code can write
  it without `Clear`. `Valid()` (at most one payload) is therefore kept only
  by the methods. The queries, `Serialize` and `LessThan` are stated for any
  field values, with the source's precedence when several are set.
- Go strings are byte strings; here they are sequences of Unicode scalar
  values. For valid UTF-8, byte order and code-point order agree, so
  `LexLess` is Go's `<` on such strings. Invalid UTF-8 is not modelled.
- `fmt.Sprintf("%s:%s", ...)` is plain concatenation.
- `Name()` is the module constant `Name`, with no contract of its own.
- The raw value's shapes other than nil, string and object (numbers,
  booleans, arrays) are the opaque `Raw.Other`. The core never inspects them.
