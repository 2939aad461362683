/** The schemas of the test suite and what the engine does with them.

    The models are those of the test fixtures: `DoubleNestedModel`,
    `NestedModel`, `RootModel` and `Model`.  Each field is described the way
    the model library (pydantic, version 1) reports it: a composite field
    (`list[int]`, `dict[str, int]`, a union of several types) has sub-fields
    and keeps its declared outer type; `str | None` is narrowed to `str`. */
module InspectorExamples {

  import opened Address
  import opened TypeInspector
  import opened InspectorProperties

  // ---------------------------------------------------------------------
  // Built-in classes and generic aliases

  const IntT: Schema := ClassT("int", false, false, false, [])
  const StrT: Schema := ClassT("str", true, true, false, [])
  const BytesT: Schema := ClassT("bytes", false, true, false, [])
  const NoneT: Schema := ClassT("NoneType", false, false, false, [])
  const ListT: Schema := ClassT("list", false, true, false, [])
  const DictT: Schema := ClassT("dict", false, false, false, [])

  function ListOf(t: Schema): Schema
  {
    Generic(Origin("list", false, true), [t])
  }

  function DictOf(k: Schema, v: Schema): Schema
  {
    Generic(Origin("dict", true, false), [k, v])
  }

  /** A field without sub-fields, its alias being its name. */
  function Plain(name: string, t: Schema): Field
  {
    Field(name, name, t, t, false)
  }

  /** A field with sub-fields: `inner` is `type_`, `outer` is `outer_type_`. */
  function Composite(name: string, inner: Schema, outer: Schema): Field
  {
    Field(name, name, inner, outer, true)
  }

  function Model(name: string, fields: seq<Field>): Schema
  {
    ClassT(name, false, false, true, fields)
  }

  // ---------------------------------------------------------------------
  // The fixture models

  const DoubleNestedModel: Schema := Model("DoubleNestedModel", [Plain("int_field", IntT)])

  const NestedModel: Schema :=
    Model("NestedModel", [Plain("str_field", StrT), Plain("double_nested_model_field", DoubleNestedModel)])

  const RootModel: Schema := Model("RootModel", [Plain(RootKey, StrT)])

  const IntOrStr: Schema := UnionT([IntT, StrT])

  const ListOfBytesOrNested: Schema := UnionT([ListOf(BytesT), NestedModel])

  /** The fields of `Model` in declaration order, as pydantic 1 describes them:
      parameterised generics and unions have sub-fields and are classified from
      their outer type; `str | None` is narrowed to `str`, without sub-fields. */
  const ModelFieldTable: seq<Field> := [
    Plain("int_field", IntT),
    Plain("list_field", ListT),
    Composite("list_of_int_field", IntT, ListOf(IntT)),
    Plain("nested_model_field", NestedModel),
    Plain("dict_field", DictT),
    Composite("dict_of_str_nested_model_field", NestedModel, DictOf(StrT, NestedModel)),
    Composite("dict_of_str_int_field", IntT, DictOf(StrT, IntT)),
    Composite("union_str_or_int_field", IntOrStr, IntOrStr),
    Composite("union_list_of_bytes_or_nested_model_field", ListOfBytesOrNested, ListOfBytesOrNested),
    Composite("dict_of_int_str_field", StrT, DictOf(IntT, StrT)),
    Plain("any_field", AnyT),
    Plain("root_field", RootModel),
    Plain("str_or_none_field", StrT)
  ]

  const TestModel: Schema := Model("Model", ModelFieldTable)

  /** The `inspector` fixture: `pick_inspector(Model, ["Model"])`. */
  const Fixture: Inspector := PydanticModelInspector(TestModel, [Str("Model")])

  /** A field table none of whose names is `"__root__"`. */
  lemma NoRootField(fields: seq<Field>)
    requires forall k :: 0 <= k < |fields| ==> fields[k].name != RootKey
    ensures !HasRootField(fields)
  {
  }

  lemma FixtureClassifies()
    ensures PickInspector(true, TestModel, [Str("Model")]) == Ok(Fixture)
  {
    NoRootField(ModelFieldTable);
  }

  /** Every alias of the table is its name, and the names are distinct. */
  lemma TableNames(i: nat)
    requires i < |ModelFieldTable|
    ensures ModelFieldTable[i].alias == ModelFieldTable[i].name
    ensures forall k :: 0 <= k < i ==> ModelFieldTable[k].alias != ModelFieldTable[i].name
  {
  }

  /** `Fixture[name]` for the field at position `i` of the table. */
  lemma FieldOfRoot(i: nat)
    requires i < |ModelFieldTable|
    ensures Fixture.Access(true, Str(ModelFieldTable[i].name))
            == PickInspector(true, FieldSchema(ModelFieldTable[i]), [Str("Model"), Str(ModelFieldTable[i].name)])
  {
    var f := ModelFieldTable[i];
    TableNames(i);
    FindFieldFirstMatch(true, Fixture, ModelFieldTable, f.name);
    assert Fixture.addressParts + [Str(f.name)] == [Str("Model"), Str(f.name)];
  }

  /** The address of a plain attribute below a first part `head`, such as a
      field of the fixture below `Model`. */
  lemma FieldAddress(head: string, name: string)
    requires forall k :: 0 <= k < |name| ==> Verbatim(name[k], '\'')
    ensures Render([Str(head), Str(name)]) == head + "['" + name + "']"
  {
    StrReprVerbatim(name);
    var parts := [Str(head), Str(name)];
    assert parts[1..] == [Str(name)];
    assert parts[1..][1..] == [];
    RenderCons(parts);
  }

  /** One step of a path. */
  lemma PathStep(m: bool, n: Inspector, key: Key, rest: seq<Key>, child: Inspector)
    requires n.Access(m, key) == Ok(child)
    ensures InspectPath(m, n, [key] + rest) == InspectPath(m, child, rest)
  {
    assert ([key] + rest)[0] == key;
    assert ([key] + rest)[1..] == rest;
  }

  // ---------------------------------------------------------------------
  // Addresses

  lemma EmptyAddress()
    ensures OpaqueInspector(IntT, []).Address() == ""
    ensures PickInspector(true, IntT, []) == Ok(OpaqueInspector(IntT, []))
  {
  }

  /** An index, a plain key and an index, as met below a list of dicts of lists. */
  lemma IndexKeyIndexAddress(i: int, key: string, j: int)
    requires forall k :: 0 <= k < |key| ==> Verbatim(key[k], '\'')
    ensures Render([Int(i), Str(key), Int(j)]) == IntToString(i) + ("['" + key + "']") + ("[" + IntToString(j) + "]")
  {
    var parts := [Int(i), Str(key), Int(j)];
    StrReprVerbatim(key);
    var tail := parts[1..];
    assert tail == [Str(key), Int(j)] && tail[1..] == [Int(j)] && tail[1..][1..] == [];
    assert Subscripts(tail[1..]) == "[" + IntToString(j) + "]";
    assert Subscripts(tail) == ("['" + key + "']") + Subscripts(tail[1..]);
    RenderCons(parts);
  }

  /** A part holding a single quote (and no double quote) is written between
      double quotes, as `m["it's"]`. */
  lemma QuotedAddress(head: string, s: string, i: nat)
    requires i < |s| && s[i] == '\''
    requires forall k :: 0 <= k < |s| ==> Verbatim(s[k], '"')
    ensures Render([Str(head), Str(s)]) == head + "[\"" + s + "\"]"
  {
    StrReprDoubleQuoted(s, i);
    var parts := [Str(head), Str(s)];
    assert parts[1..] == [Str(s)];
    assert parts[1..][1..] == [];
    RenderCons(parts);
  }

  /** A path whose first step fails fails with that error. */
  lemma PathFails(m: bool, n: Inspector, key: Key, rest: seq<Key>, e: Error)
    requires n.Access(m, key) == Err(e)
    ensures InspectPath(m, n, [key] + rest) == Err(e)
  {
    assert ([key] + rest)[0] == key;
  }

  // ---------------------------------------------------------------------
  // The children of the fixture

  lemma IntField()
    ensures Fixture.Access(true, Str("int_field")) == Ok(OpaqueInspector(IntT, [Str("Model"), Str("int_field")]))
  {
    FieldOfRoot(0);
  }

  lemma ListField()
    ensures Fixture.Access(true, Str("list_field")) == Ok(SequenceInspector(ListT, [Str("Model"), Str("list_field")]))
  {
    FieldOfRoot(1);
  }

  lemma ListOfIntField()
    ensures Fixture.Access(true, Str("list_of_int_field"))
            == Ok(GenericAliasInspector(ListOf(IntT), [Str("Model"), Str("list_of_int_field")]))
  {
    FieldOfRoot(2);
  }

  lemma DictOfStrNestedModelField()
    ensures Fixture.Access(true, Str("dict_of_str_nested_model_field"))
            == Ok(GenericAliasInspector(DictOf(StrT, NestedModel), [Str("Model"), Str("dict_of_str_nested_model_field")]))
  {
    FieldOfRoot(5);
  }

  lemma DictOfStrIntField()
    ensures Fixture.Access(true, Str("dict_of_str_int_field"))
            == Ok(GenericAliasInspector(DictOf(StrT, IntT), [Str("Model"), Str("dict_of_str_int_field")]))
  {
    FieldOfRoot(6);
  }

  lemma UnionStrOrIntField()
    ensures Fixture.Access(true, Str("union_str_or_int_field"))
            == Ok(UnionInspector([IntT, StrT], [Str("Model"), Str("union_str_or_int_field")]))
  {
    FieldOfRoot(7);
  }

  lemma UnionListOfBytesOrNestedModelField()
    ensures Fixture.Access(true, Str("union_list_of_bytes_or_nested_model_field"))
            == Ok(UnionInspector([ListOf(BytesT), NestedModel],
                                 [Str("Model"), Str("union_list_of_bytes_or_nested_model_field")]))
  {
    FieldOfRoot(8);
  }

  /** `dict[int, str]` is refused when the field is classified, before any key
      is looked up in it. */
  lemma DictOfIntStrField()
    ensures Fixture.Access(true, Str("dict_of_int_str_field")) == Err(SchemaTypeError)
  {
    FieldOfRoot(9);
  }

  lemma AnyField()
    ensures Fixture.Access(true, Str("any_field")) == Ok(AnyInspector(AnyT, [Str("Model"), Str("any_field")]))
  {
    FieldOfRoot(10);
  }

  /** `root_field` is a root model: it stands for its `"__root__"` field. */
  lemma RootField()
    ensures Fixture.Access(true, Str("root_field"))
            == Ok(SequenceInspector(StrT, [Str("Model"), Str("root_field"), Str(RootKey)]))
  {
    FieldOfRoot(11);
    var a := [Str("Model"), Str("root_field")];
    var n := PydanticModelInspector(RootModel, a);
    assert RootModel.fields[0] in RootModel.fields;
    RootModelUnwraps(true, RootModel, a);
    FindFieldFirstMatch(true, n, RootModel.fields, RootKey);
    assert a + [Str(RootKey)] == [Str("Model"), Str("root_field"), Str(RootKey)];
  }

  /** The optional field is classified from its narrowed type `str`: a
      sequence node, not a union node. */
  lemma StrOrNoneField()
    ensures Fixture.Access(true, Str("str_or_none_field"))
            == Ok(SequenceInspector(StrT, [Str("Model"), Str("str_or_none_field")]))
  {
    FieldOfRoot(12);
  }

  // ---------------------------------------------------------------------
  // Steps below the fixture, at any address

  lemma StringDictRefusesIndex(parts: seq<Key>, i: int)
    ensures GenericAliasInspector(DictOf(StrT, IntT), parts).Access(true, Int(i))
            == Err(InspectionError(NonStringKeyOnDict, Render(parts), Int(i)))
  {
  }

  lemma BareListRefusesAttribute(parts: seq<Key>, name: string)
    ensures SequenceInspector(ListT, parts).Access(true, Str(name))
            == Err(InspectionError(NonIntKey, Render(parts), Str(name)))
  {
  }

  lemma ListOfIntRefusesAttribute(parts: seq<Key>, name: string)
    ensures GenericAliasInspector(ListOf(IntT), parts).Access(true, Str(name))
            == Err(InspectionError(NotSubscriptable, Render(parts), Str(name)))
  {
  }

  /** `int | str` accepts no attribute. */
  lemma IntOrStrRefusesAttribute(parts: seq<Key>, name: string)
    ensures UnionInspector([IntT, StrT], parts).Access(true, Str(name))
            == Err(InspectionError(NoSuchKey, Render(parts), Str(name)))
  {
    var u := UnionInspector([IntT, StrT], parts);
    assert Swallowed(u.AttemptAlternative(true, IntT, Str(name)));
    assert Swallowed(u.AttemptAlternative(true, StrT, Str(name)));
    TryAlternativesFirstMatch(true, u, [IntT, StrT], Str(name));
  }

  lemma NestedModelByKey(parts: seq<Key>, key: string)
    ensures GenericAliasInspector(DictOf(StrT, NestedModel), parts).Access(true, Str(key))
            == Ok(PydanticModelInspector(NestedModel, parts + [Str(key)]))
  {
    NoRootField(NestedModel.fields);
    ReclassifyIsIdentity(true, PydanticModelInspector(NestedModel, parts + [Str(key)]));
  }

  lemma NestedModelFields(parts: seq<Key>)
    ensures PydanticModelInspector(NestedModel, parts).Access(true, Str("str_field"))
            == Ok(SequenceInspector(StrT, parts + [Str("str_field")]))
    ensures PydanticModelInspector(NestedModel, parts).Access(true, Str("double_nested_model_field"))
            == Ok(PydanticModelInspector(DoubleNestedModel, parts + [Str("double_nested_model_field")]))
  {
    var n := PydanticModelInspector(NestedModel, parts);
    FindFieldFirstMatch(true, n, NestedModel.fields, "str_field");
    FindFieldFirstMatch(true, n, NestedModel.fields, "double_nested_model_field");
    NoRootField(DoubleNestedModel.fields);
    ReclassifyIsIdentity(true, PydanticModelInspector(DoubleNestedModel, parts + [Str("double_nested_model_field")]));
  }

  lemma DoubleNestedModelFields(parts: seq<Key>)
    ensures PydanticModelInspector(DoubleNestedModel, parts).Access(true, Str("int_field"))
            == Ok(OpaqueInspector(IntT, parts + [Str("int_field")]))
  {
    FindFieldFirstMatch(true, PydanticModelInspector(DoubleNestedModel, parts), DoubleNestedModel.fields, "int_field");
  }

  /** `list[bytes] | NestedModel` takes an index through its first alternative. */
  lemma BytesOrNestedByIndex(parts: seq<Key>, i: int)
    ensures UnionInspector([ListOf(BytesT), NestedModel], parts).Access(true, Int(i))
            == Ok(SequenceInspector(BytesT, parts + [Int(i)]))
  {
    var u := UnionInspector([ListOf(BytesT), NestedModel], parts);
    var g := GenericAliasInspector(ListOf(BytesT), parts);
    assert u.AttemptAlternative(true, ListOf(BytesT), Int(i)) == g.Access(true, Int(i));
    assert g.Access(true, Int(i)) == Ok(SequenceInspector(BytesT, parts + [Int(i)]));
    assert u.alternatives[0] == ListOf(BytesT);
    TryAlternativesFirstMatch(true, u, u.alternatives, Int(i));
  }

  /** ... and an attribute through its second, after the first refused it. */
  lemma BytesOrNestedByAttribute(parts: seq<Key>)
    ensures UnionInspector([ListOf(BytesT), NestedModel], parts).Access(true, Str("str_field"))
            == Ok(SequenceInspector(StrT, parts + [Str("str_field")]))
  {
    var u := UnionInspector([ListOf(BytesT), NestedModel], parts);
    var key := Str("str_field");
    assert Swallowed(u.AttemptAlternative(true, ListOf(BytesT), key));
    NoRootField(NestedModel.fields);
    var n := PydanticModelInspector(NestedModel, parts);
    ReclassifyIsIdentity(true, n);
    assert u.AttemptAlternative(true, NestedModel, key) == n.Access(true, key);
    NestedModelFields(parts);
    TryAlternativesFirstMatch(true, u, u.alternatives, key);
    assert u.alternatives[1] == NestedModel;
  }

  // ---------------------------------------------------------------------
  // Paths that fail

  lemma UnsubscriptableField()
    ensures InspectPath(true, Fixture, [Str("int_field"), Str("hello")])
            == Err(InspectionError(NotSubscriptable, Render([Str("Model"), Str("int_field")]), Str("hello")))
  {
    IntField();
    var n := OpaqueInspector(IntT, [Str("Model"), Str("int_field")]);
    var e := InspectionError(NotSubscriptable, Render(n.addressParts), Str("hello"));
    OpaqueRejectsEveryKey(true, n, Str("hello"));
    PathFails(true, n, Str("hello"), [], e);
    PathStep(true, Fixture, Str("int_field"), [Str("hello")], n);
  }

  lemma IntKeyOnStringDict()
    ensures InspectPath(true, Fixture, [Str("dict_of_str_int_field"), Int(0)])
            == Err(InspectionError(NonStringKeyOnDict, Render([Str("Model"), Str("dict_of_str_int_field")]), Int(0)))
  {
    DictOfStrIntField();
    var n := GenericAliasInspector(DictOf(StrT, IntT), [Str("Model"), Str("dict_of_str_int_field")]);
    StringDictRefusesIndex(n.addressParts, 0);
    PathFails(true, n, Int(0), [], InspectionError(NonStringKeyOnDict, Render(n.addressParts), Int(0)));
    PathStep(true, Fixture, Str("dict_of_str_int_field"), [Int(0)], n);
  }

  lemma StrKeyOnBareList()
    ensures InspectPath(true, Fixture, [Str("list_field"), Str("hewwo")])
            == Err(InspectionError(NonIntKey, Render([Str("Model"), Str("list_field")]), Str("hewwo")))
  {
    ListField();
    var n := SequenceInspector(ListT, [Str("Model"), Str("list_field")]);
    BareListRefusesAttribute(n.addressParts, "hewwo");
    PathFails(true, n, Str("hewwo"), [], InspectionError(NonIntKey, Render(n.addressParts), Str("hewwo")));
    PathStep(true, Fixture, Str("list_field"), [Str("hewwo")], n);
  }

  lemma StrKeyOnListOfInt()
    ensures InspectPath(true, Fixture, [Str("list_of_int_field"), Str("hewwo")])
            == Err(InspectionError(NotSubscriptable, Render([Str("Model"), Str("list_of_int_field")]), Str("hewwo")))
  {
    ListOfIntField();
    var n := GenericAliasInspector(ListOf(IntT), [Str("Model"), Str("list_of_int_field")]);
    ListOfIntRefusesAttribute(n.addressParts, "hewwo");
    PathFails(true, n, Str("hewwo"), [], InspectionError(NotSubscriptable, Render(n.addressParts), Str("hewwo")));
    PathStep(true, Fixture, Str("list_of_int_field"), [Str("hewwo")], n);
  }

  /** Neither `int` nor `str` accepts an attribute, so the union reports the
      key as missing at its own address. */
  lemma UnionNotFound()
    ensures InspectPath(true, Fixture, [Str("union_str_or_int_field"), Str("hewwo")])
            == Err(InspectionError(NoSuchKey, Render([Str("Model"), Str("union_str_or_int_field")]), Str("hewwo")))
  {
    UnionStrOrIntField();
    var u := UnionInspector([IntT, StrT], [Str("Model"), Str("union_str_or_int_field")]);
    var key := Str("hewwo");
    IntOrStrRefusesAttribute(u.addressParts, key.s);
    PathFails(true, u, key, [], u.RaiseError(key, NoSuchKey));
    PathStep(true, Fixture, Str("union_str_or_int_field"), [key], u);
  }

  lemma ModelRefusesIntKey()
    ensures Fixture.Access(true, Int(1)) == Err(InspectionError(InvalidIdentifier, "Model", Int(1)))
  {
  }

  lemma ModelMissingKey()
    ensures Fixture.Access(true, Str("hewwo_darkness")) == Err(InspectionError(NoSuchKey, "Model", Str("hewwo_darkness")))
  {
    var name := "hewwo_darkness";
    assert forall k :: 0 <= k < |ModelFieldTable| ==> ModelFieldTable[k].alias != name;
    FindFieldFirstMatch(true, Fixture, ModelFieldTable, name);
    assert Fixture.Address() == "Model" by {
      assert Fixture.addressParts[1..] == [];
    }
  }

  // ---------------------------------------------------------------------
  // Paths that succeed

  /** Below `dict[str, NestedModel]`: a key, then two model fields. */
  lemma NestedPath(parts: seq<Key>)
    ensures InspectPath(true, GenericAliasInspector(DictOf(StrT, NestedModel), parts),
                        [Str("key"), Str("double_nested_model_field"), Str("int_field")])
            == Ok(OpaqueInspector(IntT, parts + [Str("key"), Str("double_nested_model_field"), Str("int_field")]))
  {
    var k2, k3, k4 := Str("key"), Str("double_nested_model_field"), Str("int_field");
    var n1 := GenericAliasInspector(DictOf(StrT, NestedModel), parts);
    var n2 := PydanticModelInspector(NestedModel, parts + [k2]);
    var n3 := PydanticModelInspector(DoubleNestedModel, n2.addressParts + [k3]);
    var n4 := OpaqueInspector(IntT, n3.addressParts + [k4]);
    NestedModelByKey(parts, k2.s);
    NestedModelFields(n2.addressParts);
    DoubleNestedModelFields(n3.addressParts);
    PathStep(true, n3, k4, [], n4);
    PathStep(true, n2, k3, [k4], n3);
    PathStep(true, n1, k2, [k3, k4], n2);
    assert [k2] + [k3, k4] == [k2, k3, k4];
    assert [k3] + [k4] == [k3, k4];
    assert [k4] + [] == [k4];
    assert n4.addressParts == parts + [k2, k3, k4];
  }

  lemma DeepPath()
    ensures InspectPath(true, Fixture, [Str("dict_of_str_nested_model_field"), Str("key"),
                                     Str("double_nested_model_field"), Str("int_field")])
            == Ok(OpaqueInspector(IntT, [Str("Model"), Str("dict_of_str_nested_model_field"), Str("key"),
                                         Str("double_nested_model_field"), Str("int_field")]))
  {
    var k1 := Str("dict_of_str_nested_model_field");
    var rest := [Str("key"), Str("double_nested_model_field"), Str("int_field")];
    DictOfStrNestedModelField();
    var n1 := GenericAliasInspector(DictOf(StrT, NestedModel), [Str("Model"), k1]);
    NestedPath(n1.addressParts);
    PathStep(true, Fixture, k1, rest, n1);
    assert [k1] + rest == [k1, Str("key"), Str("double_nested_model_field"), Str("int_field")];
    assert n1.addressParts + rest
           == [Str("Model"), k1, Str("key"), Str("double_nested_model_field"), Str("int_field")];
  }

  /** The first alternative, `list[bytes]`, takes the index. */
  lemma UnionTakesIndex()
    ensures InspectPath(true, Fixture, [Str("union_list_of_bytes_or_nested_model_field"), Int(2)])
            == Ok(SequenceInspector(BytesT, [Str("Model"), Str("union_list_of_bytes_or_nested_model_field"), Int(2)]))
  {
    UnionListOfBytesOrNestedModelField();
    var u := UnionInspector([ListOf(BytesT), NestedModel],
                            [Str("Model"), Str("union_list_of_bytes_or_nested_model_field")]);
    var c := SequenceInspector(BytesT, u.addressParts + [Int(2)]);
    BytesOrNestedByIndex(u.addressParts, 2);
    PathStep(true, u, Int(2), [], c);
    PathStep(true, Fixture, Str("union_list_of_bytes_or_nested_model_field"), [Int(2)], u);
    assert c.addressParts == [Str("Model"), Str("union_list_of_bytes_or_nested_model_field"), Int(2)];
  }

  /** The second alternative, `NestedModel`, takes the attribute after
      `list[bytes]` refused it. */
  lemma UnionTakesAttribute()
    ensures InspectPath(true, Fixture, [Str("union_list_of_bytes_or_nested_model_field"), Str("str_field")])
            == Ok(SequenceInspector(StrT, [Str("Model"), Str("union_list_of_bytes_or_nested_model_field"),
                                           Str("str_field")]))
  {
    UnionListOfBytesOrNestedModelField();
    var u := UnionInspector([ListOf(BytesT), NestedModel],
                            [Str("Model"), Str("union_list_of_bytes_or_nested_model_field")]);
    var key := Str("str_field");
    var c := SequenceInspector(StrT, u.addressParts + [key]);
    BytesOrNestedByAttribute(u.addressParts);
    PathStep(true, u, key, [], c);
    PathStep(true, Fixture, Str("union_list_of_bytes_or_nested_model_field"), [key], u);
    assert c.addressParts == [Str("Model"), Str("union_list_of_bytes_or_nested_model_field"), key];
  }

  /** A bare `list` field yields an unconstrained element. */
  lemma BareListElement()
    ensures InspectPath(true, Fixture, [Str("list_field"), Int(83)])
            == Ok(AnyInspector(AnyT, [Str("Model"), Str("list_field"), Int(83)]))
  {
    ListField();
    var n := SequenceInspector(ListT, [Str("Model"), Str("list_field")]);
    var c := AnyInspector(AnyT, n.addressParts + [Int(83)]);
    PathStep(true, n, Int(83), [], c);
    PathStep(true, Fixture, Str("list_field"), [Int(83)], n);
    assert c.addressParts == [Str("Model"), Str("list_field"), Int(83)];
  }

  const MixedPath: seq<Key> := [Str("hello"), Str("darkness"), Int(0), Str("my"), Int(1), Str("old"), Str("friend")]

  lemma AnyChain()
    ensures InspectPath(true, Fixture, [Str("any_field")] + MixedPath)
            == Ok(AnyInspector(AnyT, [Str("Model"), Str("any_field")] + MixedPath))
  {
    AnyField();
    var n := AnyInspector(AnyT, [Str("Model"), Str("any_field")]);
    PathStep(true, Fixture, Str("any_field"), MixedPath, n);
    AnyAbsorbsEveryPath(true, n.addressParts, MixedPath);
  }

  lemma BareListChain()
    ensures InspectPath(true, SequenceInspector(ListT, []), [Int(0)] + MixedPath)
            == Ok(AnyInspector(AnyT, [Int(0)] + MixedPath))
    ensures SequenceInspector(ListT, []).Access(true, Str("hewwo"))
            == Err(InspectionError(NonIntKey, "", Str("hewwo")))
  {
    var n := AnyInspector(AnyT, [] + [Int(0)]);
    PathStep(true, SequenceInspector(ListT, []), Int(0), MixedPath, n);
    AnyAbsorbsEveryPath(true, n.addressParts, MixedPath);
  }

  /** Without the model library nested generics still resolve. */
  lemma WithoutModels()
    ensures var t := ListOf(DictOf(StrT, ListOf(BytesT)));
      && PickInspector(false, t, []) == Ok(GenericAliasInspector(t, []))
      && InspectPath(false, GenericAliasInspector(t, []), [Int(0), Str("key"), Int(0)])
         == Ok(SequenceInspector(BytesT, [Int(0), Str("key"), Int(0)]))
  {
    var t := ListOf(DictOf(StrT, ListOf(BytesT)));
    var n0 := GenericAliasInspector(t, []);
    var n1 := GenericAliasInspector(DictOf(StrT, ListOf(BytesT)), n0.addressParts + [Int(0)]);
    var n2 := GenericAliasInspector(ListOf(BytesT), n1.addressParts + [Str("key")]);
    var n3 := SequenceInspector(BytesT, n2.addressParts + [Int(0)]);
    assert n0.Access(false, Int(0)) == Ok(n1);
    assert n1.Access(false, Str("key")) == Ok(n2);
    assert n2.Access(false, Int(0)) == Ok(n3);
    PathStep(false, n2, Int(0), [], n3);
    PathStep(false, n1, Str("key"), [Int(0)], n2);
    PathStep(false, n0, Int(0), [Str("key"), Int(0)], n1);
    assert [Int(0)] + [Str("key"), Int(0)] == [Int(0), Str("key"), Int(0)];
    assert n3.addressParts == [Int(0), Str("key"), Int(0)];
  }

  /** Without the model library a model is an opaque leaf. */
  lemma ModelsNeedTheLibrary()
    ensures PickInspector(false, TestModel, [Str("Model")]) == Ok(OpaqueInspector(TestModel, [Str("Model")]))
  {
  }

  /** A union defers a schema error of one alternative: `dict[int, str]` is
      skipped and `str` takes the index. */
  lemma UnionDefersSchemaError()
    ensures PickInspector(true, UnionT([DictOf(IntT, StrT), StrT]), [Str("u")])
            == Ok(UnionInspector([DictOf(IntT, StrT), StrT], [Str("u")]))
    ensures UnionInspector([DictOf(IntT, StrT), StrT], [Str("u")]).Access(true, Int(0))
            == Ok(AnyInspector(AnyT, [Str("u"), Int(0)]))
  {
    var u := UnionInspector([DictOf(IntT, StrT), StrT], [Str("u")]);
    var s := SequenceInspector(StrT, u.addressParts);
    var c := AnyInspector(AnyT, u.addressParts + [Int(0)]);
    assert u.AttemptAlternative(true, DictOf(IntT, StrT), Int(0)) == Err(SchemaTypeError);
    assert PickInspector(true, StrT, u.addressParts) == Ok(s);
    assert s.Access(true, Int(0)) == Ok(c);
    assert u.AttemptAlternative(true, StrT, Int(0)) == Ok(c);
    TryAlternativesFirstMatch(true, u, u.alternatives, Int(0));
    assert u.alternatives[1] == StrT;
    assert c.addressParts == [Str("u"), Int(0)];
  }

  /** The root test is on field names, the lookup on aliases: a root field
      with another alias leaves the model's classification failing with the
      key `"__root__"`. */
  lemma RootFieldWithOtherAlias()
    ensures var t := Model("Odd", [Field(RootKey, "value", StrT, StrT, false)]);
      PickInspector(true, t, [Str("x")]) == Err(InspectionError(NoSuchKey, "x", Str(RootKey)))
  {
    var t := Model("Odd", [Field(RootKey, "value", StrT, StrT, false)]);
    assert t.fields[0] in t.fields;
    RootModelUnwraps(true, t, [Str("x")]);
    assert t.fields[0].alias != RootKey;
    FindFieldFirstMatch(true, PydanticModelInspector(t, [Str("x")]), t.fields, RootKey);
    assert Render([Str("x")]) == "x" by {
      assert [Str("x")][1..] == [];
    }
  }

  // ---------------------------------------------------------------------
  // Where the tests expect what this code does not do

  /** A bare `dict` is neither a generic alias nor a `Sequence`: it is an
      opaque leaf and refuses the attribute the tests expect to be absorbed. */
  lemma BareDictIsOpaque()
    ensures PickInspector(true, DictT, []) == Ok(OpaqueInspector(DictT, []))
    ensures OpaqueInspector(DictT, []).Access(true, Str("hello"))
            == Err(InspectionError(NotSubscriptable, "", Str("hello")))
  {
  }

  /** Even a field reported as the union itself gives a node that holds the
      alternatives, not the union. */
  lemma UnionNodeHoldsAlternatives(m: bool, address: seq<Key>)
    ensures PickInspector(m, UnionT([StrT, NoneT]), address) == Ok(UnionInspector([StrT, NoneT], address))
  {
  }
}
