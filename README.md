# type-inspector, modelled in Dafny

`type_inspector` checks an access path against a declared Python type without
ever looking at a value. Take
`Model.dict_of_str_nested_model_field["key"].double_nested_model_field.int_field`. The path is a
chain of string and integer keys. Each key is looked up on an *inspector node*
that stands for a schema. The lookup either yields the node of the child
schema, or raises `InspectionError` carrying the breadcrumb *address* of the
node and the key that failed.

`pick_inspector` classifies a schema into one node kind. The kinds are tried
in this fixed order:

- `Any`;
- an `X | Y` union;
- a parameterised generic alias (`list[int]`, `dict[str, T]`);
- a bare `Sequence` class (`list`, `str`, `bytes`);
- a pydantic model, when pydantic is importable;
- otherwise an opaque leaf.

Each kind has its own `__getitem__`.

The model is pure, like the source:

- Nodes are frozen dataclasses in the source; here they are a `datatype`.
- Each `__getitem__` is a case of one function `Inspector.Access`.
- The two loops are first-match recursive functions. The union loop over
  alternatives is `TryAlternatives`; the model loop over fields is `FindField`.
- Exceptions become a `Result`.
- The optional pydantic import is a flag named `modelsAvailable`.
- Python reflection (`get_origin`, `get_args`, `GenericAlias`, `UnionType`,
  `issubclass`) is replaced by the shape of the `Schema` datatype.

Files:

- `wrappers.dfy`: `Option`.
- `address.dfy` (module `Address`): the `Key` type, the rendering of an
  address (`str` of the first part, then `[repr(part)]`, with Python's string
  quoting and escaping), and a parser that reads the `[...]` tail back.
- `inspector.dfy` (module `TypeInspector`): schemas, fields, errors, node kinds,
  `PickInspector`, `Access` and the two loops.
- `properties.dfy` (module `InspectorProperties`): what the engine promises, in
  general:
  - classification and dispatch order;
  - invariants of every access: kind, breadcrumb, error location;
  - the access rule of each kind;
  - the first-match behaviour of both loops;
  - paths.
- `examples.dfy` (module `InspectorExamples`): the fixture models of the test
  suite, the tests as lemmas, and the places where the tests expect something
  the code does not do.

## Model

| member | source | states |
|---|---|---|
| `Address.Extend` | type_inspector/__init__.py:29-30 | `new_address` gives a list one longer, made of the parent's parts followed by the key. |
| `Address.Render` | type_inspector/__init__.py:38-42 | Definition of the `address` property; its properties are stated by `RenderExtend`, `RenderDecomposes` and `RenderNotInjective`. |
| `Address.Text` | type_inspector/__init__.py:42 | Definition of `str(part)` for the first part; stated through `Render`'s lemmas. |
| `Address.Repr` | type_inspector/__init__.py:42 | Definition of `repr(part)` for later parts; its inverse is stated by `ReprRoundTrip`. |
| `Address.StrRepr` | type_inspector/__init__.py:42 | Definition of `repr` of a string; its properties are stated by `StrReprRoundTrip`, `StrReprVerbatim` and `StrReprDoubleQuoted`. |
| `Address.QuoteFor` | type_inspector/__init__.py:42 | Definition of the quote `repr` picks; used by `StrReprRoundTrip` and `StrReprDoubleQuoted`. |
| `Address.Escape` | type_inspector/__init__.py:42 | Definition of the escaped body `repr` writes; its properties are stated by `EscapeRoundTrip` and `EscapeVerbatim`. |
| `Address.EscapeChar` | type_inspector/__init__.py:42 | Definition of one character's escape; its inverse is stated by `EscapeCharRoundTrip`. |
| `Address.IntToString` | type_inspector/__init__.py:42 | Definition of `str`/`repr` of an int; its inverse is stated by `IntRoundTrip`. |
| `Address.Bracket` | type_inspector/__init__.py:42 | Definition of one subscript `f"[{repr(part)}]"`; stated by `SubscriptsAppend` and `SubscriptsRoundTrip`. |
| `Address.Subscripts` | type_inspector/__init__.py:42 | Definition of the `"".join(...)` of the later parts; its inverse is stated by `SubscriptsRoundTrip`, and appending by `SubscriptsAppend`. |
| `Address.RenderExtend` | type_inspector/__init__.py:38-42 | A child's rendered address is the parent's followed by `[repr(key)]`. A child of the empty address shows the key bare. |
| `Address.SubscriptsAppend` | type_inspector/__init__.py:42 | The `[repr(p)]` join distributes over appending one part. |
| `Address.NatToString` | type_inspector/__init__.py:42 | `str` of a natural number is a non-empty string of decimal digits. |
| `Address.StrReprRoundTrip` | type_inspector/__init__.py:42 | Reading a string literal back from `repr(s)` gives `s`, whatever the quote choice and escapes. |
| `Address.EscapeRoundTrip` | type_inspector/__init__.py:42 | The escaped body of a string literal reads back to the string, up to the closing quote. |
| `Address.EscapeCharRoundTrip` | type_inspector/__init__.py:42 | Each escape `repr` writes for one character reads back to that character. |
| `Address.IntRoundTrip` | type_inspector/__init__.py:42 | `repr` of an int part reads back to the same int, negative values included. |
| `Address.NatRoundTrip` | type_inspector/__init__.py:42 | The digits of a natural number read back to the number. |
| `Address.ReprRoundTrip` | type_inspector/__init__.py:42 | A subscript's content reads back to the key, so string and int keys cannot be confused (`'0'` versus `0`). |
| `Address.SubscriptsRoundTrip` | type_inspector/__init__.py:42 | The `[...]` tail of an address determines the keys after the first one. |
| `Address.RenderDecomposes` | type_inspector/__init__.py:38-42 | A non-empty address is `str` of its first key followed by a tail that parses back to the remaining keys. |
| `Address.RenderNotInjective` | type_inspector/__init__.py:42 | The first part is written with `str`, not `repr`, so `["a[0]"]` and `["a", 0]` render alike. |
| `Address.EscapeVerbatim` | type_inspector/__init__.py:42 | A string whose characters are all at U+0020 or above, other than DEL, the backslash and the chosen quote, is its own escape (the other quote character and non-ASCII characters included). |
| `Address.StrReprVerbatim` | type_inspector/__init__.py:42 | Such a string without a single quote is rendered between single quotes. |
| `Address.StrReprDoubleQuoted` | type_inspector/__init__.py:42 | Such a string holding a single quote and no double quote is rendered between double quotes, its text copied unchanged. |
| `TypeInspector.Inspector.Address` | type_inspector/__init__.py:38-42 | Definition: a node's `address` is `Render` of its parts; stated by `Render`'s lemmas. |
| `TypeInspector.Inspector.NewAddress` | type_inspector/__init__.py:29-30 | Definition: `new_address` is `Extend` of the node's parts; stated by `Extend`'s ensures and `RenderExtend`. |
| `TypeInspector.Args` | type_inspector/__init__.py:126 | Definition of `get_args` on a schema (also used at lines 88, 92 and 94); stated by `PickKeepsSchema` and `GenericAccessRule`. |
| `TypeInspector.Suppressed` | type_inspector/__init__.py:112 | Definition of the exceptions `contextlib.suppress` names in the union loop; stated by `TryAlternativesFirstMatch`. |
| `TypeInspector.Swallowed` | type_inspector/__init__.py:112-113 | Definition: an alternative's result the union loop skips; stated by `TryAlternativesFirstMatch`. |
| `TypeInspector.HasRootField` | type_inspector/__init__.py:132 | Definition of the root-model test on field names; stated by `RootModelUnwraps` and `RootFieldWithOtherAlias`. |
| `TypeInspector.FieldSchema` | type_inspector/__init__.py:57-62 | Definition of the type a matched field's child is classified from; stated by `FindFieldFirstMatch`. |
| `TypeInspector.IsStrSubclass` | type_inspector/__init__.py:126 | Definition of `issubclass(..., str)` on a schema; stated by `PickKeepsSchema`. |
| `TypeInspector.OriginIsMapping` | type_inspector/__init__.py:125 | Definition of `issubclass(get_origin(t), Mapping)`, also used at line 86; stated by `GenericAccessRule` and `PickKeepsSchema`. |
| `TypeInspector.OriginIsSequence` | type_inspector/__init__.py:92 | Definition of `issubclass(get_origin(t), Sequence)`; stated by `GenericAccessRule`. |
| `TypeInspector.InspectPath` | tests/test_inspector.py:70-71 | Definition of a chained access `node[k0][k1]...` as the tests write it; its properties are stated by `InspectPathConcat` and `AnyAbsorbsEveryPath`. |
| `TypeInspector.Inspector.RaiseError` | type_inspector/__init__.py:32-33 | The error raised is an `InspectionError` carrying this node's rendered address and the offending key. |
| `TypeInspector.Inspector.WrapChild` | type_inspector/__init__.py:35-36 | `wrap_child` classifies the child schema at the extended address. Its ensures bounds the child's schema depth, which shows the recursion ends in the model (schemas here are finite trees); its behaviour is stated by `WrapChildInvariants`. |
| `TypeInspector.Inspector.Access` | type_inspector/__init__.py:22-27 | The `__getitem__` of every node kind, with `__getattr__` forwarding to it. The ensures bounds depth. Its behaviour is stated by `AccessInvariants`, `AccessKeyDiscipline` and the per-kind rules below. |
| `TypeInspector.Inspector.AttemptAlternative` | type_inspector/__init__.py:113 | One round of the union loop: the alternative is classified at the union's own address, then the key is accessed on it. The ensures bounds depth. |
| `TypeInspector.Inspector.TryAlternatives` | type_inspector/__init__.py:110-114 | The union loop. The ensures bounds depth. Its behaviour is stated by `TryAlternativesFirstMatch`. |
| `TypeInspector.Inspector.FindField` | type_inspector/__init__.py:51-64 | The model loop. The ensures bounds depth. Its behaviour is stated by `FindFieldFirstMatch`. |
| `TypeInspector.PickInspector` | type_inspector/__init__.py:117-137 | `pick_inspector`. The ensures bounds depth. Its behaviour is stated by the classification lemmas below. |
| `TypeInspector.ModelFields` | type_inspector/__init__.py:55 | A model's `__fields__`, no deeper than the model itself. |
| `InspectorProperties.ReclassifyIsIdentity` | type_inspector/__init__.py:117-137 | Every node has the kind its schema determines: classifying its schema again, at its address, gives back the same node. |
| `InspectorProperties.KindDeterminedBySchema` | type_inspector/__init__.py:117-137 | Two classified nodes with the same schema and address are equal. |
| `InspectorProperties.PickKeepsSchema` | type_inspector/__init__.py:117-137 | Outside root models, classification keeps the schema and the address. It fails exactly for a mapping generic whose first argument is missing (`IndexError`) or is not a `str` subclass (`TypeError`). |
| `InspectorProperties.RootModelUnwraps` | type_inspector/__init__.py:131-133 | A model with a `__root__` field classifies as the access of `"__root__"` on its model node. |
| `InspectorProperties.DispatchOrder` | type_inspector/__init__.py:124-137 | A `Sequence` class is a sequence node even when it is also a model. Without pydantic, a model is opaque. A bad mapping key type is refused at classification. |
| `InspectorProperties.RootsAdd` | type_inspector/__init__.py:133 | Runs of `"__root__"` parts concatenate. |
| `InspectorProperties.ComposeRoots` | type_inspector/__init__.py:113 | A key between root parts, below an address that ends in root parts, still sits between root parts. |
| `InspectorProperties.PickInvariants` | type_inspector/__init__.py:117-137 | Classification gives a classified node at the given address. A root model may add `"__root__"` parts, and then only with pydantic. Its only `InspectionError` is about the key `"__root__"`, raised at the given address followed by zero or more `"__root__"` parts. |
| `InspectorProperties.WrapChildInvariants` | type_inspector/__init__.py:29-36 | A wrapped child is a classified node whose address is the parent's, plus the key, plus possibly root parts. |
| `InspectorProperties.AccessInvariants` | type_inspector/__init__.py:26-36 | Every access gives either a classified child or an error. The child's address is the parent's with the key added, possibly between `"__root__"` parts; without pydantic it is exactly the parent's plus the key. Every `InspectionError` carries the parent's address and the offending key, except one raised while unwrapping a root model: that one carries the key `"__root__"` and the parent's address, then the key, then zero or more `"__root__"` parts. |
| `InspectorProperties.AttemptInvariants` | type_inspector/__init__.py:113 | A union alternative that succeeds gives a child of the union node. |
| `InspectorProperties.TryAlternativesInvariants` | type_inspector/__init__.py:110-114 | The union loop keeps the access invariants. |
| `InspectorProperties.FindFieldInvariants` | type_inspector/__init__.py:55-64 | The model loop keeps the access invariants. |
| `InspectorProperties.AccessKeyDiscipline` | type_inspector/__init__.py:26-27 | A key of a type the node kind does not accept fails at once, at this node's address, with that key. |
| `InspectorProperties.OpaqueRejectsEveryKey` | type_inspector/__init__.py:26-27 | An opaque leaf refuses every key with "not subscriptable". |
| `InspectorProperties.UntypedSequenceAccess` | type_inspector/__init__.py:99-104 | A bare `Sequence` node succeeds exactly on int keys. It yields `Any` at the extended address and refuses string keys. |
| `InspectorProperties.GenericAccessRule` | type_inspector/__init__.py:85-96 | A mapping generic takes only string keys and classifies `args[1]`; with fewer than two arguments it raises `IndexError`. A one-argument sequence generic takes only int keys and classifies `args[0]`. Every other combination is "not subscriptable". |
| `InspectorProperties.TryAlternativesFirstMatch` | type_inspector/__init__.py:110-114 | The result is that of the first alternative not failing with `InspectionError` or `TypeError`. If all fail that way, the key is missing at the union's address. |
| `InspectorProperties.FindFieldFirstMatch` | type_inspector/__init__.py:55-64 | The first field in declaration order whose alias is the key wins. It classifies `outer_type_` when the field has sub-fields and `type_` otherwise. No such alias means the key is missing. |
| `InspectorProperties.ModelAccessRule` | type_inspector/__init__.py:51-64 | On a model node, a non-string key is an invalid identifier. A string key resolves through the first field with that alias, or is missing. |
| `InspectorProperties.AnyAbsorbsEveryPath` | type_inspector/__init__.py:77-79 | On an `Any` node every path succeeds, stays `Any`, and appends its keys to the address. |
| `InspectorProperties.InspectPathConcat` | tests/test_inspector.py:89-90 | Inspecting `p + q` is inspecting `p` and then `q` from where it ended. The first error stops the walk. |
| `InspectorExamples.DoubleNestedModel` | tests/conftest.py:12-13 | Definition of the fixture model with one `int` field; stated by `DoubleNestedModelFields`. |
| `InspectorExamples.NestedModel` | tests/conftest.py:16-18 | Definition of the fixture model with a `str` field and a `DoubleNestedModel` field; stated by `NestedModelFields`. |
| `InspectorExamples.RootModel` | tests/conftest.py:21-22 | Definition of the root model over `str`; stated by `RootField`. |
| `InspectorExamples.ModelFieldTable` | tests/conftest.py:26-38 | Definition of the thirteen fields of `Model` as pydantic 1 describes them. `list_of_int_field`, the three parameterised dicts and the two unions have sub-fields and are classified from `outer_type_`; `str_or_none_field` is narrowed to `str`. Stated by the per-field lemmas `IntField` to `StrOrNoneField`. |
| `InspectorExamples.TestModel` | tests/conftest.py:25-38 | Definition of the fixture `Model`; stated by `FixtureClassifies`. |
| `InspectorExamples.Fixture` | tests/conftest.py:41-43 | Definition of the `inspector` fixture, the model node of `Model` at address `["Model"]`; stated by `FixtureClassifies`. |
| `InspectorExamples.FixtureClassifies` | tests/conftest.py:25-43 | The fixture `pick_inspector(Model, ["Model"])` is a model node. |
| `InspectorExamples.EmptyAddress` | tests/test_inspector.py:85-97 | A bare `Inspector(int)` has address `""`, and `pick_inspector(int)` is that node. |
| `InspectorExamples.IndexKeyIndexAddress` | type_inspector/__init__.py:38-42 | `[i, key, j]` renders as `str(i)['key'][repr(j)]`, such as `0['key'][0]`, when the key needs no escape. |
| `InspectorExamples.QuotedAddress` | type_inspector/__init__.py:42 | A later part holding `'` and no `"` is written between double quotes, unescaped, such as `m["it's"]`. |
| `InspectorExamples.FieldAddress` | type_inspector/__init__.py:38-42 | A plain attribute below a first part renders as `head['name']`, as a field of the fixture renders as `Model['name']`. |
| `InspectorExamples.IntField` | tests/conftest.py:26 | `int_field` is an opaque leaf. |
| `InspectorExamples.ListField` | tests/conftest.py:27 | `list_field` (bare `list`) is a sequence node. |
| `InspectorExamples.ListOfIntField` | tests/conftest.py:28 | `list_of_int_field` is the generic `list[int]`, taken from `outer_type_`. |
| `InspectorExamples.DictOfStrNestedModelField` | tests/conftest.py:31 | `dict_of_str_nested_model_field` is the generic `dict[str, NestedModel]`. |
| `InspectorExamples.DictOfStrIntField` | tests/conftest.py:32 | `dict_of_str_int_field` is the generic `dict[str, int]`. |
| `InspectorExamples.UnionStrOrIntField` | tests/conftest.py:33 | `union_str_or_int_field` is a union node over `(int, str)`. |
| `InspectorExamples.UnionListOfBytesOrNestedModelField` | tests/conftest.py:34 | The second union field is a union node over `(list[bytes], NestedModel)`. |
| `InspectorExamples.DictOfIntStrField` | tests/test_inspector.py:56-58 | Accessing `dict_of_int_str_field` raises `TypeError`. |
| `InspectorExamples.AnyField` | tests/conftest.py:36 | `any_field` is an `Any` node. |
| `InspectorExamples.RootField` | tests/test_inspector.py:61-62 | `root_field` unwraps to a node for `str`, at address `Model.root_field.__root__`. |
| `InspectorExamples.StrOrNoneField` | tests/conftest.py:38 | `str_or_none_field`, described as pydantic 1 does, is a sequence node for `str`. |
| `InspectorExamples.IntOrStrRefusesAttribute` | type_inspector/__init__.py:110-114 | The union of `int` and `str` refuses any attribute as a missing key at the union's address. |
| `InspectorExamples.NestedModelByKey` | type_inspector/__init__.py:86-88 | `dict[str, NestedModel]` at any string key gives the `NestedModel` node. |
| `InspectorExamples.NestedModelFields` | type_inspector/__init__.py:55-62 | The fields of `NestedModel` give a `str` sequence node and the `DoubleNestedModel` node. |
| `InspectorExamples.DoubleNestedModelFields` | type_inspector/__init__.py:55-62 | `DoubleNestedModel.int_field` is an opaque `int` leaf. |
| `InspectorExamples.BytesOrNestedByIndex` | type_inspector/__init__.py:110-114 | The union of `list[bytes]` and `NestedModel` takes any index through `list[bytes]`. |
| `InspectorExamples.BytesOrNestedByAttribute` | type_inspector/__init__.py:110-114 | It takes `str_field` through `NestedModel` after `list[bytes]` refused it. |
| `InspectorExamples.UnsubscriptableField` | tests/test_inspector.py:16-23 | `int_field.hello` raises "not subscriptable" at `int_field`'s address. |
| `InspectorExamples.IntKeyOnStringDict` | tests/test_inspector.py:26-28 | `dict_of_str_int_field[0]` raises the non-string-key error. |
| `InspectorExamples.StrKeyOnBareList` | tests/test_inspector.py:31-33 | `list_field["hewwo"]` raises the non-int-key error. |
| `InspectorExamples.StrKeyOnListOfInt` | tests/test_inspector.py:36-38 | `list_of_int_field["hewwo"]` raises "not subscriptable". |
| `InspectorExamples.UnionNotFound` | tests/test_inspector.py:41-43 | `union_str_or_int_field.hewwo` raises "no key" at the union's address. |
| `InspectorExamples.ModelRefusesIntKey` | tests/test_inspector.py:46-48 | `inspector[1]` raises the invalid-identifier error at `Model`. |
| `InspectorExamples.ModelMissingKey` | tests/test_inspector.py:51-53 | `inspector.hewwo_darkness` raises "no key" at `Model`. |
| `InspectorExamples.NestedPath` | type_inspector/__init__.py:85-88 | Below `dict[str, NestedModel]`, `["key"].double_nested_model_field.int_field` reaches `int`. |
| `InspectorExamples.DeepPath` | tests/test_inspector.py:70-71 | The deep path through a dict and two models reaches an `int` leaf with the full address. |
| `InspectorExamples.UnionTakesIndex` | tests/test_inspector.py:74-75 | The union field's `[2]` is a `bytes` node. |
| `InspectorExamples.UnionTakesAttribute` | tests/test_inspector.py:76 | The union field's `.str_field` is a `str` node. |
| `InspectorExamples.BareListElement` | tests/test_inspector.py:79-82 | `list_field[83]` is an `Any` node. |
| `InspectorExamples.AnyChain` | tests/test_inspector.py:89-90 | A seven-key chain below `any_field` stays `Any`. |
| `InspectorExamples.BareListChain` | tests/test_inspector.py:111-119 | Below a bare `list`, `[0]` and any chain after it is `Any`; an attribute on the list is refused. |
| `InspectorExamples.WithoutModels` | tests/test_without_pydantic.py:4-6 | Without pydantic, `list[dict[str, list[bytes]]]` at `[0]["key"][0]` is a `bytes` node. |
| `InspectorExamples.ModelsNeedTheLibrary` | type_inspector/__init__.py:131 | Without pydantic, the fixture model is an opaque leaf. |
| `InspectorExamples.UnionDefersSchemaError` | type_inspector/__init__.py:112 | A union holding `dict[int, str]` classifies fine. On access, that alternative's `TypeError` is swallowed and the next alternative answers. |
| `InspectorExamples.RootFieldWithOtherAlias` | type_inspector/__init__.py:55-56 | Root detection tests field names, but the unwrap looks up aliases. A `__root__` field with another alias makes classification fail with the key `"__root__"`. |
| `InspectorExamples.BareDictIsOpaque` | type_inspector/__init__.py:124-137 | A bare `dict` is an opaque leaf that refuses `.hello`. |
| `InspectorExamples.UnionNodeHoldsAlternatives` | type_inspector/__init__.py:122-123 | A union node holds the sequence of alternatives, not the union. |

## Where the code and its tests differ

The model follows the code.

- There is no untyped-mapping kind. A bare `dict` is neither a generic alias nor
  a `Sequence`, so it falls through to the opaque `Inspector`. The test at
  tests/test_inspector.py:100-102 expects `Any` results for `pick_inspector(dict)`;
  see `BareDictIsOpaque`. The test at tests/test_inspector.py:105-108 expects an
  `InspectionError` for an int key, and the opaque leaf does raise one.
- A model field's child is classified from `outer_type_` when the field has
  sub-fields, and from `type_` otherwise. Pydantic 1 narrows `str | None` to
  `str` with no sub-fields, so `str_or_none_field` gives a sequence node for
  `str`. tests/test_inspector.py:65-67 expects a union node; see
  `StrOrNoneField`.
- A union node's `wrapped` is the tuple `get_args(type_)`, not the union
  itself, so it cannot equal `str | None`; see `UnionNodeHoldsAlternatives`.
- The union loop suppresses `TypeError` as well as `InspectionError`
  (type_inspector/__init__.py:112). An alternative whose schema is refused with
  `TypeError` is skipped and the next alternative is tried; see
  `UnionDefersSchemaError`.
- A mapping generic with fewer than two arguments raises `IndexError`, not an
  access error. This happens at classification when there is no argument, and
  on a string key when there is only one. The union loop does not suppress it.
- Root unwrapping triggers on any field *named* `__root__` and then looks up the
  *alias* `__root__`; see `RootFieldWithOtherAlias`. An `InspectionError`
  raised while unwrapping carries the key `"__root__"` and the model's address
  followed by zero or more `"__root__"` parts (`PickInvariants`). A `TypeError`
  or `IndexError` raised while unwrapping carries neither.
- An int key on a bare `dict` raises "not subscriptable", which is the opaque
  leaf's error, not a key-type error.

## Left out

- Package version (`importlib.metadata`) and `__all__`: metadata, not logic.
- The optional `pydantic` import: the flag `modelsAvailable` stands in for it.
- Python reflection and the third-party `issubclass` package: the `Schema`
  datatype records what the engine asks. This covers a class's `str`,
  `Sequence` and `BaseModel` ancestry, a generic's origin, and type arguments.
  `issubclass` on a non-class is taken to be false.
- `typing.Union`, `typing.Optional`, and `typing.List[...]` aliases: these are
  not `types.UnionType` or `types.GenericAlias`. `UnionT` and `Generic` stand
  only for the `X | Y` and `list[int]` forms. The path the code takes for the
  `typing` forms depends on the reflection package, which is not part of this
  model.
- Attribute syntax: `__getattr__` only forwards to `__getitem__`, so there is
  one `Access`. The dataclass's own attributes (`wrapped`, `address_parts`,
  `address`, the methods) shadow `__getattr__` in Python; that shadowing is not
  modelled.
- Keys other than `str` and `int`: `Key` has only these two. A `bool` key is an
  `int` in Python and renders as `True`/`False`; this is not modelled.
- Address: non-printable non-ASCII characters are copied unchanged. Python's
  `repr` escapes them.
- Error messages: kept as a `Message` tag; the formatted text is not modelled.
- Self-referential schemas: `Schema` is an inductive datatype, so a model that
  refers to itself (a field typed `list["Tree"]` inside `Tree`, or a root model
  whose `__root__` field is the model itself) cannot be represented. The source
  handles the first kind lazily, one key at a time. On the second kind
  `pick_inspector` recurses without end (line 133 calls `__getitem__`, which
  calls `wrap_child` at line 36, which calls `pick_inspector` again). The
  termination the `Depth` measure shows holds for the finite schemas of the
  model, not for the program on such schemas.
- Address.IntToString: Python refuses to convert an int of more than 4300
  digits to text (`ValueError`, the configurable `sys.get_int_max_str_digits()`
  limit), so in Python an address holding such an index raises `ValueError`,
  which the union loop does not suppress. The model renders every int.
- TypeInspector.ModelFields: a model node over something that is not a class
  has no fields here. In Python, `__fields__` would raise `AttributeError`.
  Such a node cannot come out of `pick_inspector`.
- The module-level `pydantic = None` fallback and the `try`/`except ImportError`: load-time plumbing.
- Test fixtures that reload the module with pydantic hidden: the flag
  `modelsAvailable = false` plays that role.
