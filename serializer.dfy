/**
 * The serializer's key mapping and its transform registry.  A serializer
 * keeps, per model type, a mapping from attribute and association names to
 * the keys used on the wire and the name of the primary-key field; `toData`
 * renames outgoing keys and `materializeFromData` renames them back into the
 * record's materialization sinks.  Transforms are registered by type name
 * and looked up in both directions; an unregistered name is an error.
 */
module Serializers {
  import opened Common

  datatype Kind = HasMany | BelongsTo

  /** An attribute a model type declares, with its declared value type (`'string'`, ...). */
  datatype Attribute = Attribute(name: string, typeName: string)

  /** The relationship descriptor handed to the hooks: the association name and its kind. */
  datatype Association = Association(key: string, kind: Kind)

  /**
   * A model type: its identity, the global name it can be found under (if any),
   * and its attributes and associations in declaration order.
   */
  datatype ModelType = ModelType(typeId: nat, globalName: Option<string>,
                                 attributes: seq<Attribute>, associations: seq<Association>)

  /** How `serializer.map` names the type it configures: the type itself, or the global name of it. */
  datatype TypeRef = ByType(typeId: nat) | ByName(name: string)

  /** The configuration `map` records for one type: wire keys by name, and the primary-key field. */
  datatype TypeMapping = TypeMapping(keys: map<string, string>, primaryKey: Option<string>)

  /** The mapping of a type nobody configured: every name is its own key, the primary key is `id`. */
  const DefaultMapping: TypeMapping := TypeMapping(map[], None)

  /** A record handed to `toData`: its type, its id (`JUndefined` when it has none) and its attribute values. */
  datatype Instance = Instance(modelType: ModelType, id: Json, values: map<string, Json>)

  /** One call of the `addHasMany` or `addBelongsTo` hook made while serializing. */
  datatype HookCall = HookCall(kind: Kind, record: Instance, key: string, relationship: Association)

  /** What `toData` produces: the payload, and the hook calls that the relationships caused. */
  datatype Serialized = Serialized(data: map<string, Json>, hookCalls: seq<HookCall>)

  /** A registered transform: the conversion applied going out and the one applied coming in. */
  datatype Transform = Transform(toData: Json -> Json, fromData: Json -> Json)

  datatype SerializerError = UnknownTransform(typeName: string)

  /** The wire key of an attribute or association. */
  function KeyFor(m: TypeMapping, name: string): (key: string)
    ensures name in m.keys ==> key == m.keys[name]
    ensures name !in m.keys ==> key == name
  {
    if name in m.keys then m.keys[name] else name
  }

  /** The wire key of the id. */
  function PrimaryKeyOf(m: TypeMapping): (key: string)
    ensures m.primaryKey.Some? ==> key == m.primaryKey.value
    ensures m.primaryKey.None? ==> key == "id"
  {
    if m.primaryKey.Some? then m.primaryKey.value else "id"
  }

  /** With no mapping registered, every name is its own wire key and the id travels under `id`. */
  lemma DefaultKeys(name: string)
    ensures KeyFor(DefaultMapping, name) == name && PrimaryKeyOf(DefaultMapping) == "id"
  {
  }

  /** Reading a key of a payload; a missing key reads as `undefined`. */
  function Read(data: map<string, Json>, key: string): (v: Json)
    ensures key in data ==> v == data[key]
    ensures key !in data ==> v == JUndefined
  {
    if key in data then data[key] else JUndefined
  }

  function AttributeNames(attrs: seq<Attribute>): set<string> {
    set a | a in attrs :: a.name
  }

  /** The wire keys of a sequence of attributes. */
  function WireKeys(m: TypeMapping, attrs: seq<Attribute>): set<string> {
    set a | a in attrs :: KeyFor(m, a.name)
  }

  /** No two differently named attributes share a wire key. */
  predicate KeysDistinct(m: TypeMapping, attrs: seq<Attribute>) {
    forall a, b :: a in attrs && b in attrs && KeyFor(m, a.name) == KeyFor(m, b.name) ==> a.name == b.name
  }

  /** The id goes into the payload when `includeId` is asked for and the record has one. */
  predicate EmitsId(inst: Instance, includeId: bool) {
    includeId && inst.id != JUndefined && inst.id != JNull
  }

  /** The associations of one kind, by name. */
  function NamesOfKind(assocs: seq<Association>, kind: Kind): set<string> {
    set a | a in assocs && a.kind == kind :: a.key
  }

  /** Reads each attribute from its wire key, in order, keyed by the attribute's name. */
  function ReadAttributes(m: TypeMapping, attrs: seq<Attribute>, data: map<string, Json>): map<string, Json>
    decreases |attrs|
  {
    if attrs == [] then map[]
    else
      var a := attrs[|attrs| - 1];
      ReadAttributes(m, attrs[..|attrs| - 1], data)[a.name := Read(data, KeyFor(m, a.name))]
  }

  /** Every attribute is read, from its wire key, and nothing else is. */
  lemma {:induction false} ReadAttributesMeaning(m: TypeMapping, attrs: seq<Attribute>, data: map<string, Json>)
    ensures ReadAttributes(m, attrs, data).Keys == AttributeNames(attrs)
    ensures forall name :: name in ReadAttributes(m, attrs, data) ==>
      ReadAttributes(m, attrs, data)[name] == Read(data, KeyFor(m, name))
    decreases |attrs|
  {
    if attrs != [] {
      var a := attrs[|attrs| - 1];
      assert attrs == attrs[..|attrs| - 1] + [a];
      ReadAttributesMeaning(m, attrs[..|attrs| - 1], data);
    }
  }

  /** A single attribute is read from its wire key. */
  lemma ReadOneAttribute(m: TypeMapping, a: Attribute, data: map<string, Json>)
    ensures ReadAttributes(m, [a], data) == map[a.name := Read(data, KeyFor(m, a.name))]
  {
    assert [a][..0] == [];
  }

  /** Reads each association of one kind from its wire key, in order, keyed by the association's name. */
  function ReadAssociations(m: TypeMapping, assocs: seq<Association>, kind: Kind, data: map<string, Json>)
    : map<string, Json>
    decreases |assocs|
  {
    if assocs == [] then map[]
    else
      var a := assocs[|assocs| - 1];
      var before := ReadAssociations(m, assocs[..|assocs| - 1], kind, data);
      if a.kind == kind then before[a.key := Read(data, KeyFor(m, a.key))] else before
  }

  /** Every association of the kind is read, from its wire key, and nothing else is. */
  lemma {:induction false} ReadAssociationsMeaning(m: TypeMapping, assocs: seq<Association>, kind: Kind,
                                                   data: map<string, Json>)
    ensures ReadAssociations(m, assocs, kind, data).Keys == NamesOfKind(assocs, kind)
    ensures forall name :: name in ReadAssociations(m, assocs, kind, data) ==>
      ReadAssociations(m, assocs, kind, data)[name] == Read(data, KeyFor(m, name))
    decreases |assocs|
  {
    if assocs != [] {
      var a := assocs[|assocs| - 1];
      assert assocs == assocs[..|assocs| - 1] + [a];
      ReadAssociationsMeaning(m, assocs[..|assocs| - 1], kind, data);
    }
  }

  /** A single association is read from its wire key under its own kind, and not at all under the other. */
  lemma ReadOneAssociation(m: TypeMapping, a: Association, kind: Kind, data: map<string, Json>)
    ensures ReadAssociations(m, [a], kind, data) ==
      if a.kind == kind then map[a.key := Read(data, KeyFor(m, a.key))] else map[]
  {
    assert [a][..0] == [];
  }

  /** Reading one more association of the kind read extends what was read, on top of any earlier contents. */
  lemma ReadOneMoreAssociation(base: map<string, Json>, m: TypeMapping, assocs: seq<Association>, i: nat,
                               data: map<string, Json>)
    requires i < |assocs|
    ensures base + ReadAssociations(m, assocs[..i + 1], assocs[i].kind, data) ==
      (base + ReadAssociations(m, assocs[..i], assocs[i].kind, data))[assocs[i].key := Read(data, KeyFor(m, assocs[i].key))]
  {
    assert assocs[..i + 1][..i] == assocs[..i];
    UnionUpdate(base, ReadAssociations(m, assocs[..i], assocs[i].kind, data), assocs[i].key, Read(data, KeyFor(m, assocs[i].key)));
  }

  /** An association of another kind adds nothing. */
  lemma SkipAssociation(m: TypeMapping, assocs: seq<Association>, i: nat, kind: Kind, data: map<string, Json>)
    requires i < |assocs| && assocs[i].kind != kind
    ensures ReadAssociations(m, assocs[..i + 1], kind, data) == ReadAssociations(m, assocs[..i], kind, data)
  {
    assert assocs[..i + 1][..i] == assocs[..i];
  }

  lemma UnionWithEmpty<K, V>(b: map<K, V>)
    ensures map[] + b == b
  {
  }

  lemma UnionUpdate<K, V>(a: map<K, V>, b: map<K, V>, k: K, v: V)
    ensures (a + b)[k := v] == a + b[k := v]
  {
  }

  /** Whether a registration under `ref` is one that lookups for `t` consult. */
  predicate Names(ref: TypeRef, t: ModelType) {
    ref == ByType(t.typeId) || (t.globalName.Some? && ref == ByName(t.globalName.value))
  }

  /**
   * The mapping that applies to a type: the one registered for the type
   * itself, else the one registered under its global name, else the default.
   */
  function Resolve(mappings: map<TypeRef, TypeMapping>, t: ModelType): (r: TypeMapping)
    ensures ByType(t.typeId) in mappings ==> r == mappings[ByType(t.typeId)]
    ensures ByType(t.typeId) !in mappings && t.globalName.Some? && ByName(t.globalName.value) in mappings ==>
      r == mappings[ByName(t.globalName.value)]
    ensures (forall ref :: Names(ref, t) ==> ref !in mappings) ==> r == DefaultMapping
  {
    if ByType(t.typeId) in mappings then mappings[ByType(t.typeId)]
    else if t.globalName.Some? && ByName(t.globalName.value) in mappings then mappings[ByName(t.globalName.value)]
    else DefaultMapping
  }

  /**
   * Mappings are per type: registering a mapping changes the mapping of no
   * type that the registration does not name.
   */
  lemma MapLeavesOtherTypes(mappings: map<TypeRef, TypeMapping>, target: TypeRef, config: TypeMapping, t: ModelType)
    requires !Names(target, t)
    ensures Resolve(mappings[target := config], t) == Resolve(mappings, t)
  {
  }

  /**
   * A registration for the type itself always applies to it; one under its
   * global name applies unless the type itself has a registration.
   */
  lemma MapApplies(mappings: map<TypeRef, TypeMapping>, target: TypeRef, config: TypeMapping, t: ModelType)
    requires Names(target, t)
    requires target.ByName? ==> ByType(t.typeId) !in mappings
    ensures Resolve(mappings[target := config], t) == config
  {
  }

  /**
   * Adds the attributes in order, each under its wire key; a later attribute
   * with the same key overwrites an earlier one.
   */
  function AddAttributes(d: map<string, Json>, m: TypeMapping, attrs: seq<Attribute>, values: map<string, Json>)
    : (r: map<string, Json>)
    ensures r.Keys == d.Keys + WireKeys(m, attrs)
    ensures forall k :: k in d && k !in WireKeys(m, attrs) ==> r[k] == d[k]
    ensures KeysDistinct(m, attrs) ==> forall a :: a in attrs ==> r[KeyFor(m, a.name)] == Read(values, a.name)
    decreases |attrs|
  {
    if attrs == [] then d
    else
      var a := attrs[0];
      assert attrs == [a] + attrs[1..];
      assert WireKeys(m, attrs) == {KeyFor(m, a.name)} + WireKeys(m, attrs[1..]);
      assert KeysDistinct(m, attrs) ==> KeysDistinct(m, attrs[1..]);
      AddAttributes(d[KeyFor(m, a.name) := Read(values, a.name)], m, attrs[1..], values)
  }

  /** A single attribute is added under its wire key. */
  lemma AddOneAttribute(d: map<string, Json>, m: TypeMapping, a: Attribute, values: map<string, Json>)
    ensures AddAttributes(d, m, [a], values) == d[KeyFor(m, a.name) := Read(values, a.name)]
  {
    assert [a][1..] == [];
  }

  /**
   * The hook calls the associations cause, in declaration order: each hook is
   * given the record, the association's mapped wire key, and the descriptor
   * with the unmapped name and the kind.
   */
  function HookCalls(m: TypeMapping, inst: Instance, assocs: seq<Association>): (r: seq<HookCall>)
    ensures |r| == |assocs|
    ensures forall i :: 0 <= i < |assocs| ==>
      r[i] == HookCall(assocs[i].kind, inst, KeyFor(m, assocs[i].key), assocs[i])
    decreases |assocs|
  {
    if assocs == [] then []
    else [HookCall(assocs[0].kind, inst, KeyFor(m, assocs[0].key), assocs[0])] + HookCalls(m, inst, assocs[1..])
  }

  /** A serializer: its mappings by type reference and its transforms by type name. */
  class Serializer {
    var mappings: map<TypeRef, TypeMapping>
    var transforms: map<string, Transform>

    constructor ()
      ensures mappings == map[] && transforms == map[]
    {
      mappings := map[];
      transforms := map[];
    }

    /** The mapping that applies to a type under the current registrations. */
    function MappingFor(t: ModelType): TypeMapping
      reads this`mappings
    {
      Resolve(mappings, t)
    }

    /** `serializer.map(type, config)` */
    method Map(target: TypeRef, config: TypeMapping)
      modifies this`mappings
      ensures mappings == old(mappings)[target := config]
      ensures forall t :: !Names(target, t) ==> MappingFor(t) == old(MappingFor(t))
    {
      mappings := mappings[target := config];
      forall t | !Names(target, t) {
        MapLeavesOtherTypes(old(mappings), target, config, t);
      }
    }

    /**
     * `serializer.toData(record, { includeId: ... })`: the id under the primary
     * key if asked for, then every attribute under its wire key, nothing else;
     * the associations go to the hooks.
     */
    function ToData(inst: Instance, includeId: bool): (r: Serialized)
      reads this`mappings
      ensures var m := MappingFor(inst.modelType);
        r.data.Keys == WireKeys(m, inst.modelType.attributes) + (if EmitsId(inst, includeId) then {PrimaryKeyOf(m)} else {})
      ensures var m := MappingFor(inst.modelType);
        KeysDistinct(m, inst.modelType.attributes) ==>
          forall a :: a in inst.modelType.attributes ==> r.data[KeyFor(m, a.name)] == Read(inst.values, a.name)
      ensures var m := MappingFor(inst.modelType);
        EmitsId(inst, includeId) && PrimaryKeyOf(m) !in WireKeys(m, inst.modelType.attributes) ==>
          r.data[PrimaryKeyOf(m)] == inst.id
      ensures var assocs := inst.modelType.associations;
        |r.hookCalls| == |assocs| &&
        forall i :: 0 <= i < |assocs| ==>
          r.hookCalls[i] == HookCall(assocs[i].kind, inst, KeyFor(MappingFor(inst.modelType), assocs[i].key), assocs[i])
    {
      var m := MappingFor(inst.modelType);
      var withId := if EmitsId(inst, includeId) then map[PrimaryKeyOf(m) := inst.id] else map[];
      Serialized(AddAttributes(withId, m, inst.modelType.attributes, inst.values),
                 HookCalls(m, inst, inst.modelType.associations))
    }

    /** The id `materializeFromData` reads: the value under the primary key. */
    function ExtractId(t: ModelType, data: map<string, Json>): (r: Json)
      reads this`mappings
      ensures PrimaryKeyOf(MappingFor(t)) in data ==> r == data[PrimaryKeyOf(MappingFor(t))]
      ensures PrimaryKeyOf(MappingFor(t)) !in data ==> r == JUndefined
    {
      Read(data, PrimaryKeyOf(MappingFor(t)))
    }

    /** The attribute values `materializeFromData` reads: each attribute from its wire key. */
    function ExtractAttributes(t: ModelType, data: map<string, Json>): (r: map<string, Json>)
      reads this`mappings
      ensures r.Keys == AttributeNames(t.attributes)
      ensures forall name :: name in r ==> r[name] == Read(data, KeyFor(MappingFor(t), name))
    {
      ReadAttributesMeaning(MappingFor(t), t.attributes, data);
      ReadAttributes(MappingFor(t), t.attributes, data)
    }

    /** The ids `materializeFromData` reads for the associations of one kind, by association name. */
    function ExtractAssociations(t: ModelType, kind: Kind, data: map<string, Json>): (r: map<string, Json>)
      reads this`mappings
      ensures r.Keys == NamesOfKind(t.associations, kind)
      ensures forall name :: name in r ==> r[name] == Read(data, KeyFor(MappingFor(t), name))
    {
      ReadAssociationsMeaning(MappingFor(t), t.associations, kind, data);
      ReadAssociations(MappingFor(t), t.associations, kind, data)
    }

    /**
     * `serializer.materializeFromData(record, data)`: the id, then every
     * attribute, then every association is read from its wire key and handed to
     * the record's matching sink.
     */
    method MaterializeFromData(record: MockModel, data: map<string, Json>)
      modifies record`materializedId, record`materializedAttributes, record`hasMany, record`belongsTo
      ensures record.materializedId == ExtractId(record.modelType, data)
      ensures record.materializedAttributes == old(record.materializedAttributes) + ExtractAttributes(record.modelType, data)
      ensures record.hasMany == old(record.hasMany) + ExtractAssociations(record.modelType, HasMany, data)
      ensures record.belongsTo == old(record.belongsTo) + ExtractAssociations(record.modelType, BelongsTo, data)
    {
      var t := record.modelType;
      var m := MappingFor(t);
      record.MaterializeId(Read(data, PrimaryKeyOf(m)));
      MaterializeAttributes(record, m, data);
      MaterializeAssociations(record, m, data);
    }

    /** The `eachAttribute` loop of `materializeFromData`. */
    method MaterializeAttributes(record: MockModel, m: TypeMapping, data: map<string, Json>)
      requires m == MappingFor(record.modelType)
      modifies record`materializedAttributes
      ensures record.materializedAttributes == old(record.materializedAttributes) + ExtractAttributes(record.modelType, data)
    {
      var attrs := record.modelType.attributes;
      var i := 0;
      while i < |attrs|
        invariant 0 <= i <= |attrs|
        invariant record.materializedAttributes == old(record.materializedAttributes) + ReadAttributes(m, attrs[..i], data)
      {
        var a := attrs[i];
        var value := Read(data, KeyFor(m, a.name));
        assert attrs[..i + 1][..i] == attrs[..i];
        UnionUpdate(old(record.materializedAttributes), ReadAttributes(m, attrs[..i], data), a.name, value);
        record.MaterializeAttribute(a.name, value);
        i := i + 1;
      }
      assert attrs[..i] == attrs;
    }

    /** The `eachAssociation` loop of `materializeFromData`: has-many ids and belongs-to ids go to their own sinks. */
    method MaterializeAssociations(record: MockModel, m: TypeMapping, data: map<string, Json>)
      requires m == MappingFor(record.modelType)
      modifies record`hasMany, record`belongsTo
      ensures record.hasMany == old(record.hasMany) + ExtractAssociations(record.modelType, HasMany, data)
      ensures record.belongsTo == old(record.belongsTo) + ExtractAssociations(record.modelType, BelongsTo, data)
    {
      var assocs := record.modelType.associations;
      var i := 0;
      while i < |assocs|
        invariant 0 <= i <= |assocs|
        invariant record.hasMany == old(record.hasMany) + ReadAssociations(m, assocs[..i], HasMany, data)
        invariant record.belongsTo == old(record.belongsTo) + ReadAssociations(m, assocs[..i], BelongsTo, data)
      {
        var a := assocs[i];
        var value := Read(data, KeyFor(m, a.key));
        if a.kind == HasMany {
          ReadOneMoreAssociation(old(record.hasMany), m, assocs, i, data);
          SkipAssociation(m, assocs, i, BelongsTo, data);
          record.MaterializeHasMany(a.key, value);
        } else {
          ReadOneMoreAssociation(old(record.belongsTo), m, assocs, i, data);
          SkipAssociation(m, assocs, i, HasMany, data);
          record.MaterializeBelongsTo(a.key, value);
        }
        i := i + 1;
      }
      assert assocs[..i] == assocs;
    }

    /** `serializer.registerTransform(typeName, transform)` */
    method RegisterTransform(typeName: string, transform: Transform)
      modifies this`transforms
      ensures transforms == old(transforms)[typeName := transform]
      ensures forall v :: TransformValueToData(v, typeName) == Ok(transform.toData(v))
      ensures forall v :: TransformValueFromData(v, typeName) == Ok(transform.fromData(v))
    {
      transforms := transforms[typeName := transform];
    }

    /** `serializer.transformValueToData(value, typeName)`: throws for a type name with no transform. */
    function TransformValueToData(value: Json, typeName: string): (r: Result<Json, SerializerError>)
      reads this`transforms
      ensures r.Err? <==> typeName !in transforms
      ensures r.Err? ==> r.error == UnknownTransform(typeName)
      ensures r.Ok? ==> r.value == transforms[typeName].toData(value)
    {
      if typeName in transforms then Ok(transforms[typeName].toData(value)) else Err(UnknownTransform(typeName))
    }

    /** `serializer.transformValueFromData(value, typeName)`: throws for a type name with no transform. */
    function TransformValueFromData(value: Json, typeName: string): (r: Result<Json, SerializerError>)
      reads this`transforms
      ensures r.Err? <==> typeName !in transforms
      ensures r.Err? ==> r.error == UnknownTransform(typeName)
      ensures r.Ok? ==> r.value == transforms[typeName].fromData(value)
    {
      if typeName in transforms then Ok(transforms[typeName].fromData(value)) else Err(UnknownTransform(typeName))
    }
  }

  /**
   * Renaming is undone on the way back: materializing the payload `toData`
   * produced gives every attribute its value again, under its own name, as
   * long as no two attributes share a wire key.
   */
  lemma AttributesRoundTrip(s: Serializer, inst: Instance, includeId: bool)
    requires KeysDistinct(s.MappingFor(inst.modelType), inst.modelType.attributes)
    ensures s.ExtractAttributes(inst.modelType, s.ToData(inst, includeId).data) ==
      map name | name in AttributeNames(inst.modelType.attributes) :: Read(inst.values, name)
  {
    var attrs := inst.modelType.attributes;
    var m := s.MappingFor(inst.modelType);
    var d := s.ToData(inst, includeId).data;
    forall name | name in AttributeNames(attrs)
      ensures Read(d, KeyFor(m, name)) == Read(inst.values, name)
    {
      var a :| a in attrs && a.name == name;
      assert KeyFor(m, a.name) in WireKeys(m, attrs);
    }
  }

  /**
   * The id goes out under the mapped primary key and is read back from it,
   * unless an attribute was mapped onto the same key.
   */
  lemma IdRoundTrip(s: Serializer, inst: Instance)
    requires inst.id != JUndefined && inst.id != JNull
    requires PrimaryKeyOf(s.MappingFor(inst.modelType)) !in WireKeys(s.MappingFor(inst.modelType), inst.modelType.attributes)
    ensures s.ExtractId(inst.modelType, s.ToData(inst, true).data) == inst.id
  {
    assert EmitsId(inst, true);
  }

  /** The test double for a record: it only remembers what it was asked to materialize. */
  class MockModel {
    const modelType: ModelType
    var materializedId: Json
    var materializedAttributes: map<string, Json>
    var hasMany: map<string, Json>
    var belongsTo: map<string, Json>

    constructor (modelType: ModelType)
      ensures this.modelType == modelType && materializedId == JUndefined
      ensures materializedAttributes == map[] && hasMany == map[] && belongsTo == map[]
    {
      this.modelType := modelType;
      materializedId := JUndefined;
      materializedAttributes := map[];
      hasMany := map[];
      belongsTo := map[];
    }

    method MaterializeId(id: Json)
      modifies this`materializedId
      ensures materializedId == id
    {
      materializedId := id;
    }

    method MaterializeAttribute(name: string, value: Json)
      modifies this`materializedAttributes
      ensures materializedAttributes == old(materializedAttributes)[name := value]
    {
      materializedAttributes := materializedAttributes[name := value];
    }

    method MaterializeHasMany(name: string, ids: Json)
      modifies this`hasMany
      ensures hasMany == old(hasMany)[name := ids]
    {
      hasMany := hasMany[name := ids];
    }

    method MaterializeBelongsTo(name: string, id: Json)
      modifies this`belongsTo
      ensures belongsTo == old(belongsTo)[name := id]
    {
      belongsTo := belongsTo[name := id];
    }
  }
}
