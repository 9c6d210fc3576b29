/**
 * The serializer tests, one method per test: each builds a fresh serializer,
 * registers the test's mappings or transforms, runs the operations and
 * returns what the test inspects; the `ensures` are the test's assertions.
 */
module SerializerScenarios {
  import opened Common
  import opened Serializers

  /** `Person`: a type reachable only through itself. */
  function Person(attributes: seq<Attribute>, associations: seq<Association>): ModelType {
    ModelType(0, None, attributes, associations)
  }

  /** `Address`: a type that is also published under the global name `Address`. */
  function Address(attributes: seq<Attribute>, associations: seq<Association>): ModelType {
    ModelType(1, Some("Address"), attributes, associations)
  }

  /** What a fresh record of type `t` holds after `materializeFromData(record, data)`. */
  datatype Materialized = Materialized(id: Json, attributes: map<string, Json>,
                                       hasMany: map<string, Json>, belongsTo: map<string, Json>)

  method MaterializeNew(s: Serializer, t: ModelType, data: map<string, Json>) returns (r: Materialized)
    ensures r == Materialized(s.ExtractId(t, data), s.ExtractAttributes(t, data),
                              s.ExtractAssociations(t, HasMany, data), s.ExtractAssociations(t, BelongsTo, data))
  {
    var record := new MockModel(t);
    s.MaterializeFromData(record, data);
    UnionWithEmpty(s.ExtractAttributes(t, data));
    UnionWithEmpty(s.ExtractAssociations(t, HasMany, data));
    UnionWithEmpty(s.ExtractAssociations(t, BelongsTo, data));
    r := Materialized(record.materializedId, record.materializedAttributes, record.hasMany, record.belongsTo);
  }

  const FirstName: seq<Attribute> := [Attribute("firstName", "string")]

  /** Registers the attribute mappings of the two attribute tests. */
  method AttributeMappings() returns (s: Serializer)
    ensures fresh(s) && s.transforms == map[]
    ensures s.MappingFor(Person(FirstName, [])) == TypeMapping(map["firstName" := "FIRST_NAME"], None)
    ensures s.MappingFor(Address(FirstName, [])) == TypeMapping(map["firstName" := "first_name"], None)
  {
    s := new Serializer();
    s.Map(ByType(0), TypeMapping(map["firstName" := "FIRST_NAME"], None));
    s.Map(ByName("Address"), TypeMapping(map["firstName" := "first_name"], None));
  }

  /** Mapped attributes are used when serializing; each type keeps its own mapping. */
  method MappedAttributesSerialize() returns (personData: map<string, Json>, addressData: map<string, Json>)
    ensures personData == map["FIRST_NAME" := JString("Tom")]
    ensures addressData == map["first_name" := JString("Spruce")]
  {
    var s := AttributeMappings();
    var person := Instance(Person(FirstName, []), JUndefined, map["firstName" := JString("Tom")]);
    var address := Instance(Address(FirstName, []), JUndefined, map["firstName" := JString("Spruce")]);
    AddOneAttribute(map[], s.MappingFor(person.modelType), FirstName[0], person.values);
    AddOneAttribute(map[], s.MappingFor(address.modelType), FirstName[0], address.values);
    personData := s.ToData(person, false).data;
    addressData := s.ToData(address, false).data;
  }

  /** Mapped attributes are used when materializing. */
  method MappedAttributesMaterialize() returns (personAttributes: map<string, Json>, addressAttributes: map<string, Json>)
    ensures personAttributes == map["firstName" := JString("Tom")]
    ensures addressAttributes == map["firstName" := JString("Spruce")]
  {
    var s := AttributeMappings();
    ReadOneAttribute(s.MappingFor(Person(FirstName, [])), FirstName[0], map["FIRST_NAME" := JString("Tom")]);
    ReadOneAttribute(s.MappingFor(Address(FirstName, [])), FirstName[0], map["first_name" := JString("Spruce")]);
    var person := MaterializeNew(s, Person(FirstName, []), map["FIRST_NAME" := JString("Tom")]);
    var address := MaterializeNew(s, Address(FirstName, []), map["first_name" := JString("Spruce")]);
    personAttributes := person.attributes;
    addressAttributes := address.attributes;
  }

  const Addresses: seq<Association> := [Association("addresses", HasMany)]
  const PersonLink: seq<Association> := [Association("person", BelongsTo)]

  /** Registers the association mappings of the two relationship tests. */
  method AssociationMappings() returns (s: Serializer)
    ensures fresh(s) && s.transforms == map[]
    ensures s.MappingFor(Person([], Addresses)) == TypeMapping(map["addresses" := "ADDRESSES!"], None)
    ensures s.MappingFor(Address([], PersonLink)) == TypeMapping(map["person" := "MY_PEEP"], None)
  {
    s := new Serializer();
    s.Map(ByType(0), TypeMapping(map["addresses" := "ADDRESSES!"], None));
    s.Map(ByName("Address"), TypeMapping(map["person" := "MY_PEEP"], None));
  }

  /**
   * Mapped relationships are used when serializing: each hook is called once,
   * with the record, the mapped key and the unmapped descriptor.
   */
  method MappedRelationshipsSerialize() returns (person: Instance, address: Instance,
                                               personCalls: seq<HookCall>, addressCalls: seq<HookCall>)
    ensures person == Instance(Person([], Addresses), JUndefined, map[])
    ensures address == Instance(Address([], PersonLink), JUndefined, map[])
    ensures personCalls == [HookCall(HasMany, person, "ADDRESSES!", Association("addresses", HasMany))]
    ensures addressCalls == [HookCall(BelongsTo, address, "MY_PEEP", Association("person", BelongsTo))]
  {
    var s := AssociationMappings();
    person := Instance(Person([], Addresses), JUndefined, map[]);
    address := Instance(Address([], PersonLink), JUndefined, map[]);
    personCalls := s.ToData(person, false).hookCalls;
    addressCalls := s.ToData(address, false).hookCalls;
  }

  /** Mapped relationships are respected when materializing. */
  method MappedRelationshipsMaterialize() returns (personHasMany: map<string, Json>, addressBelongsTo: map<string, Json>)
    ensures personHasMany == map["addresses" := JArray([JNumber(1), JNumber(2), JNumber(3)])]
    ensures addressBelongsTo == map["person" := JNumber(1)]
  {
    var s := AssociationMappings();
    var ids := map["ADDRESSES!" := JArray([JNumber(1), JNumber(2), JNumber(3)])];
    ReadOneAssociation(s.MappingFor(Person([], Addresses)), Addresses[0], HasMany, ids);
    ReadOneAssociation(s.MappingFor(Address([], PersonLink)), PersonLink[0], BelongsTo, map["MY_PEEP" := JNumber(1)]);
    var person := MaterializeNew(s, Person([], Addresses), ids);
    var address := MaterializeNew(s, Address([], PersonLink), map["MY_PEEP" := JNumber(1)]);
    personHasMany := person.hasMany;
    addressBelongsTo := address.belongsTo;
  }

  /** Registers the primary-key mappings of the two primary-key tests. */
  method PrimaryKeyMappings() returns (s: Serializer)
    ensures fresh(s) && s.transforms == map[]
    ensures s.MappingFor(Person([], [])) == TypeMapping(map[], Some("__id__"))
    ensures s.MappingFor(Address([], [])) == TypeMapping(map[], Some("ID"))
  {
    s := new Serializer();
    s.Map(ByType(0), TypeMapping(map[], Some("__id__")));
    s.Map(ByName("Address"), TypeMapping(map[], Some("ID")));
  }

  /** Mapped primary keys are respected when serializing with `includeId`. */
  method MappedPrimaryKeySerialize() returns (personData: map<string, Json>, addressData: map<string, Json>)
    ensures personData == map["__id__" := JNumber(1)]
    ensures addressData == map["ID" := JNumber(2)]
  {
    var s := PrimaryKeyMappings();
    personData := s.ToData(Instance(Person([], []), JNumber(1), map[]), true).data;
    addressData := s.ToData(Instance(Address([], []), JNumber(2), map[]), true).data;
  }

  /** Mapped primary keys are respected when materializing. */
  method MappedPrimaryKeyMaterialize() returns (personId: Json, addressId: Json)
    ensures personId == JNumber(1)
    ensures addressId == JNumber(2)
  {
    var s := PrimaryKeyMappings();
    var person := MaterializeNew(s, Person([], []), map["__id__" := JNumber(1)]);
    var address := MaterializeNew(s, Address([], []), map["ID" := JNumber(2)]);
    personId := person.id;
    addressId := address.id;
  }

  /**
   * A registered transform is called in both directions; an unregistered
   * type name is an error in both directions.
   */
  method RegisteredTransforms() returns (fromData: Result<Json, SerializerError>, toData: Result<Json, SerializerError>,
                                         unknownFrom: Result<Json, SerializerError>, unknownTo: Result<Json, SerializerError>)
    ensures fromData == Ok(JString("fromData"))
    ensures toData == Ok(JString("toData"))
    ensures unknownFrom.Err? && unknownTo.Err?
  {
    var s := new Serializer();
    s.RegisterTransform("unobtainium", Transform(_ => JString("toData"), _ => JString("fromData")));
    fromData := s.TransformValueFromData(JString("unknown"), "unobtainium");
    toData := s.TransformValueToData(JString("unknown"), "unobtainium");
    unknownFrom := s.TransformValueFromData(JString("unknown"), "obtainium");
    unknownTo := s.TransformValueToData(JString("unknown"), "obtainium");
  }
}
