/**
 * Model hydration: a model instance is built from a raw keyed object by first
 * snapshotting it, then running the registered type casters and relation
 * hydrators over the keys it owns (overwriting the caller's object in place),
 * snapshotting the processed object and copying it onto the instance. A model
 * subtype names one of its fields as its identifier.
 */
module Models {
  import opened Wrappers

  /** A JavaScript value as hydration sees it. An absent key stands for `undefined`. */
  datatype Value =
    | Null
    | Bool(b: bool)
    | Num(n: int)
    | Str(s: string)
    | Arr(items: seq<Value>)
    | Obj(props: map<string, Value>)

  /** A keyed object's own enumerable properties. */
  type Fields = map<string, Value>

  /** A type caster or a relation hydrator: a function applied to one field's value. */
  type Converter = Value -> Value

  /** A registry of converters by field name, as the property decorators fill it. */
  type Registry = map<string, Converter>

  // ---------------------------------------------------------------------------
  // Specification of one hydration, on values
  // ---------------------------------------------------------------------------

  /** An unset registry (`undefined`) behaves as an empty one. */
  function RegistryOf(r: Option<Registry>): Registry
  {
    match r
    case None => map[]
    case Some(m) => m
  }

  /**
   * One registry pass: every key of `m` that has a converter gets the
   * converted value; every other key keeps its value; no key is added.
   */
  function Applied(m: Fields, registry: Registry): (r: Fields)
    ensures r.Keys == m.Keys
    ensures forall k :: k in r && k in registry ==> r[k] == registry[k](m[k])
    ensures forall k :: k in r && k !in registry ==> r[k] == m[k]
  {
    map k | k in m :: if k in registry then registry[k](m[k]) else m[k]
  }

  /**
   * The processed object: the type-cast pass, then the relation pass. It owns
   * exactly the input's keys, and each value is the relation hydrator (or the
   * identity) applied to the cast value (or the raw value).
   */
  function Processed(input: Fields, casts: Registry, relations: Registry): (r: Fields)
    ensures r.Keys == input.Keys
    ensures forall k :: k in r ==>
      var cast := if k in casts then casts[k](input[k]) else input[k];
      r[k] == if k in relations then relations[k](cast) else cast
  {
    Applied(Applied(input, casts), relations)
  }

  /** `Object.assign(target, source)`: the properties of `source` are copied over `target`'s. */
  function Assign(target: Fields, source: Fields): (r: Fields)
    ensures r.Keys == target.Keys + source.Keys
    ensures forall k :: k in source ==> r[k] == source[k]
    ensures forall k :: k in target && k !in source ==> r[k] == target[k]
  {
    target + source
  }

  /** The converter a registry holds for `k`, or the identity. */
  function ConverterOr(registry: Registry, k: string): Converter
  {
    if k in registry then registry[k] else (v: Value) => v
  }

  /**
   * Per key, the processed value is the relation hydrator applied to the
   * type-cast value: `relation(caster(v))` when both are registered, `caster(v)`
   * or `relation(v)` when one is, and `v` itself when neither is. Keys the
   * input does not own stay absent.
   */
  lemma ProcessedAt(input: Fields, casts: Registry, relations: Registry, k: string)
    ensures k in Processed(input, casts, relations) <==> k in input
    ensures k in input ==>
      Processed(input, casts, relations)[k] == ConverterOr(relations, k)(ConverterOr(casts, k)(input[k]))
    ensures k in input && k in casts && k in relations ==>
      Processed(input, casts, relations)[k] == relations[k](casts[k](input[k]))
    ensures k in input && k in casts && k !in relations ==>
      Processed(input, casts, relations)[k] == casts[k](input[k])
    ensures k in input && k !in casts && k in relations ==>
      Processed(input, casts, relations)[k] == relations[k](input[k])
    ensures k in input && k !in casts && k !in relations ==>
      Processed(input, casts, relations)[k] == input[k]
  {
  }

  /** Processing never adds or drops a key: there is no default-filling. */
  lemma ProcessedKeys(input: Fields, casts: Registry, relations: Registry)
    ensures Processed(input, casts, relations).Keys == input.Keys
  {
  }

  /** With no converter registered for any key, processing changes nothing. */
  lemma ProcessedUnregistered(input: Fields, casts: Registry, relations: Registry)
    requires input.Keys !! casts.Keys && input.Keys !! relations.Keys
    ensures Processed(input, casts, relations) == input
  {
  }

  /**
   * The property key `this[self.identifierKey]` reads: the identifier key when
   * one was set, otherwise `undefined`, which JavaScript converts to the
   * property name "undefined".
   */
  function PropertyKey(identifierKey: Option<string>): string
  {
    match identifierKey
    case Some(k) => k
    case None => "undefined"
  }

  /** The value of the identifier field among `fields`, or nothing when it is absent. */
  function IdentifierOf(fields: Fields, identifierKey: Option<string>): (id: Option<Value>)
    ensures id.Some? <==> PropertyKey(identifierKey) in fields
    ensures id.Some? ==> id.value == fields[PropertyKey(identifierKey)]
  {
    var key := PropertyKey(identifierKey);
    if key in fields then Some(fields[key]) else None
  }

  /**
   * After hydrating from `input`, the identifier of an instance whose
   * subtype names `key` is the processed value of `key`, which is the raw
   * value when no converter is registered for it.
   */
  lemma IdentifierAfterHydration(prior: Fields, input: Fields, casts: Registry, relations: Registry, key: string)
    requires key in input
    ensures IdentifierOf(Assign(prior, Processed(input, casts, relations)), Some(key))
         == Some(ConverterOr(relations, key)(ConverterOr(casts, key)(input[key])))
    ensures key !in casts && key !in relations ==>
      IdentifierOf(Assign(prior, Processed(input, casts, relations)), Some(key)) == Some(input[key])
  {
  }

  /** With no identifier key set, reading the identifier does not fail: it yields nothing. */
  lemma IdentifierUnset(fields: Fields)
    requires "undefined" !in fields
    ensures IdentifierOf(fields, None) == None
  {
  }

  // ---------------------------------------------------------------------------
  // Objects
  // ---------------------------------------------------------------------------

  /** The caller's data object; hydration overwrites its own properties in place. */
  class RawObject {
    var props: Fields

    constructor(props: Fields)
      ensures this.props == props
    {
      this.props := props;
    }
  }

  /**
   * A model subtype: its static `identifierKey` and the caster and relation
   * registries its property decorators attach (`undefined` until one is).
   */
  class ModelClass {
    var identifierKey: Option<string>
    const typeCasts: Option<Registry>
    const relations: Option<Registry>

    constructor(typeCasts: Option<Registry>, relations: Option<Registry>)
      ensures this.typeCasts == typeCasts && this.relations == relations
      ensures identifierKey == None
    {
      this.typeCasts := typeCasts;
      this.relations := relations;
      identifierKey := None;
    }

    /** Hydration of an absent input is defined only when there is nothing to run. */
    predicate AcceptsAbsentInput()
      reads this
    {
      RegistryOf(typeCasts) == map[] && RegistryOf(relations) == map[]
    }
  }

  /**
   * The `primary` property decorator: sets the subtype's identifier key to
   * `propertyKey`. The key is class-level, so every instance of the subtype,
   * existing or future, now reads its identifier from field `propertyKey`.
   */
  method Primary(target: ModelClass, propertyKey: string)
    modifies target
    ensures target.identifierKey == Some(propertyKey)
    ensures forall m: Model :: m.cls == target ==>
      m.GetIdentifier() == (if propertyKey in m.fields then Some(m.fields[propertyKey]) else None)
  {
    target.identifierKey := Some(propertyKey);
  }

  /**
   * One registry loop of `hydrate`: for each registered key that `data` owns,
   * the entry is overwritten with the converted value. Keys are visited in an
   * arbitrary order; the result does not depend on it.
   */
  method RunRegistry(data: RawObject, registry: Registry)
    modifies data
    ensures data.props == Applied(old(data.props), registry)
  {
    var pending := registry.Keys;
    while pending != {}
      invariant pending <= registry.Keys
      invariant data.props.Keys == old(data.props).Keys
      invariant forall k :: k in data.props ==>
        data.props[k] == if k in registry && k !in pending then registry[k](old(data.props)[k]) else old(data.props)[k]
      decreases pending
    {
      var key :| key in pending;
      if key in data.props {
        data.props := data.props[key := registry[key](data.props[key])];
      }
      pending := pending - {key};
    }
  }

  /** A model instance: its live fields and the two snapshots taken while hydrating. */
  class Model {
    const cls: ModelClass
    var fields: Fields
    var rawData: Fields
    var original: Fields

    /** `new Subtype(data)`: an instance hydrated from `data`. */
    constructor(cls: ModelClass, data: RawObject?)
      requires data != null || cls.AcceptsAbsentInput()
      modifies data
      ensures this.cls == cls
      ensures rawData == (if data == null then map[] else old(data.props))
      ensures original == Processed(rawData, RegistryOf(cls.typeCasts), RegistryOf(cls.relations))
      ensures fields == original
      ensures data != null ==> data.props == original
    {
      this.cls := cls;
      fields := map[];
      rawData := map[];
      original := map[];
      new;
      Hydrate(data);
    }

    /**
     * `hydrate(data)`. `rawData` is the input as given, before any converter
     * runs; `original` is the input after casting and then relation
     * hydration; the processed fields are copied onto the instance, whose
     * other fields are left as they were; and the caller's object now holds
     * the processed values.
     */
    method Hydrate(data: RawObject?)
      requires data != null || cls.AcceptsAbsentInput()
      modifies this, data
      ensures rawData == (if data == null then map[] else old(data.props))
      ensures original == Processed(rawData, RegistryOf(cls.typeCasts), RegistryOf(cls.relations))
      ensures fields == Assign(old(fields), original)
      ensures data != null ==> data.props == original
    {
      rawData := if data == null then map[] else data.props;
      // with no input, both registries are empty and neither loop has anything to visit
      if data != null {
        if cls.typeCasts.Some? {
          RunRegistry(data, cls.typeCasts.value);
        }
        if cls.relations.Some? {
          RunRegistry(data, cls.relations.value);
        }
      }
      original := if data == null then map[] else data.props;
      fields := Assign(fields, original);
    }

    /** `getIdentifier()`: the field the subtype's identifier key names. */
    function GetIdentifier(): (id: Option<Value>)
      reads this, cls
      ensures cls.identifierKey.Some? ==>
        (id.Some? <==> cls.identifierKey.value in fields) &&
        (id.Some? ==> id.value == fields[cls.identifierKey.value])
      ensures cls.identifierKey.None? && "undefined" !in fields ==> id == None
    {
      IdentifierOf(fields, cls.identifierKey)
    }
  }

  /**
   * A caller's view of one hydration: a field `age` with a caster turning the
   * string "42" into the number 42, read back through the identifier after
   * `primary` names `age`, while the raw snapshot keeps the string.
   */
  method HydrationScenario(toInt: Converter) returns (identifier: Option<Value>, raw: Value)
    requires toInt(Str("42")) == Num(42)
    ensures identifier == Some(Num(42))
    ensures raw == Str("42")
  {
    var subtype := new ModelClass(Some(map["age" := toInt]), None);
    var input := new RawObject(map["age" := Str("42"), "name" := Str("Ada")]);
    var m := new Model(subtype, input);
    ProcessedAt(m.rawData, RegistryOf(subtype.typeCasts), RegistryOf(subtype.relations), "age");
    ProcessedAt(m.rawData, RegistryOf(subtype.typeCasts), RegistryOf(subtype.relations), "name");
    assert m.fields["age"] == Num(42) && m.original["age"] == Num(42);
    assert m.rawData["age"] == Str("42");
    assert m.fields["name"] == Str("Ada");
    assert input.props["age"] == Num(42);
    Primary(subtype, "age");
    identifier := m.GetIdentifier();
    raw := m.rawData["age"];
  }
}
