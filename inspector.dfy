/** The inspection engine of `type_inspector`.

    A schema (a declared type) is classified into one of a closed set of node
    kinds; each kind has its own rule for looking up a key, which yields the
    node of the child schema or an error.  No value is ever looked at.

    Python's run-time reflection (`get_origin`, `get_args`, `types.UnionType`,
    `GenericAlias`, `issubclass`) is replaced by the shape of `Schema`, and
    the optional `pydantic` import by the flag `modelsAvailable`. */
module TypeInspector {

  import opened Address

  /** The field name that marks a pydantic root model. */
  const RootKey: string := "__root__"

  /** The origin of a parameterised generic alias, with the two abstract base
      classes the engine asks about (`Mapping`, `Sequence`). */
  datatype Origin = Origin(name: string, isMapping: bool, isSequence: bool)

  /** A model field as the model library describes it: its attribute name
      (the key of `__fields__`), its alias, the inner type (`type_`), the
      declared outer type (`outer_type_`), and whether it has sub-fields. */
  datatype Field = Field(name: string, alias: string, innerType: Schema, outerType: Schema, composite: bool)

  /** A declared type.  `ClassT` is a plain class: whether it subclasses
      `str`, whether it subclasses `collections.abc.Sequence`, whether it
      subclasses `pydantic.BaseModel`, and a model's fields in declaration
      order (`__fields__`; ignored for a class that is not a model).
      The flags are independent here, so `strLike` without `sequenceLike` is
      representable; no Python class is like that, since `str` is a
      `Sequence`, and the fixtures never build one. */
  datatype Schema =
    | AnyT
    | UnionT(alts: seq<Schema>)
    | Generic(origin: Origin, args: seq<Schema>)
    | ClassT(name: string, strLike: bool, sequenceLike: bool, isModel: bool, fields: seq<Field>)

  /** Which message an `InspectionError` carries. */
  datatype Message =
    | NotSubscriptable    // "Object is not subscriptable"
    | NonStringKeyOnDict  // a non-string key on a string-keyed mapping
    | NonIntKey           // a non-int key on an untyped sequence
    | InvalidIdentifier   // a non-string key on a model
    | NoSuchKey           // no field alias, or no union alternative, accepts the key

  /** `InspectionError` is the access error; `TypeError` a schema the engine
      refuses (a mapping whose key type is not `str`); `IndexError` comes
      from indexing `get_args` of a generic alias with too few arguments. */
  datatype Error =
    | InspectionError(message: Message, address: string, problematicKey: Key)
    | SchemaTypeError
    | ArgIndexError

  datatype Result<+T> = Ok(value: T) | Err(error: Error)

  /** The exceptions a union alternative may raise without stopping the search. */
  predicate Suppressed(e: Error)
  {
    e.InspectionError? || e.SchemaTypeError?
  }

  predicate Swallowed(r: Result<Inspector>)
  {
    r.Err? && Suppressed(r.error)
  }

  /** `issubclass(t, str)`: false for anything that is not a class. */
  predicate IsStrSubclass(t: Schema)
  {
    t.ClassT? && t.strLike
  }

  /** `issubclass(get_origin(t), Mapping)`; a non-generic has no origin. */
  predicate OriginIsMapping(t: Schema)
  {
    t.Generic? && t.origin.isMapping
  }

  /** `issubclass(get_origin(t), Sequence)`. */
  predicate OriginIsSequence(t: Schema)
  {
    t.Generic? && t.origin.isSequence
  }

  /** `get_args(t)` for a generic alias. */
  function Args(t: Schema): seq<Schema>
  {
    if t.Generic? then t.args else []
  }

  /** `"__root__" in type_.__fields__`: the test is on field names. */
  predicate HasRootField(fields: seq<Field>)
  {
    exists f :: f in fields && f.name == RootKey
  }

  /** The type the child of a matched field is classified from: the declared
      outer type when the field has sub-fields, the inner type otherwise. */
  function FieldSchema(f: Field): Schema
  {
    if f.composite then f.outerType else f.innerType
  }

  // ---------------------------------------------------------------------
  // A size measure for schemas, used only to prove termination

  function Max(a: nat, b: nat): nat
  {
    if a < b then b else a
  }

  function Depth(t: Schema): (d: nat)
    ensures d >= 1
  {
    match t
    case AnyT => 1
    case UnionT(alts) => 1 + MaxDepth(alts)
    case Generic(_, args) => 1 + MaxDepth(args)
    case ClassT(_, _, _, _, fields) => 1 + MaxFieldDepth(fields)
  }

  function MaxDepth(ts: seq<Schema>): (d: nat)
    ensures forall k :: 0 <= k < |ts| ==> Depth(ts[k]) <= d
  {
    if ts == [] then 0 else Max(Depth(ts[0]), MaxDepth(ts[1..]))
  }

  function MaxFieldDepth(fs: seq<Field>): (d: nat)
    ensures forall k :: 0 <= k < |fs| ==> Depth(fs[k].innerType) <= d && Depth(fs[k].outerType) <= d
  {
    if fs == [] then 0
    else Max(Max(Depth(fs[0].innerType), Depth(fs[0].outerType)), MaxFieldDepth(fs[1..]))
  }

  /** `self.wrapped.__fields__` of a model node (no fields for anything else). */
  function ModelFields(t: Schema): (fields: seq<Field>)
    ensures 1 + MaxFieldDepth(fields) <= Depth(t)
  {
    if t.ClassT? then t.fields else []
  }

  // ---------------------------------------------------------------------
  // Nodes

  /** One constructor per inspector class of the source.  A union node holds
      the tuple of its alternatives (`get_args`), not the union itself. */
  datatype Inspector =
    | OpaqueInspector(wrapped: Schema, addressParts: seq<Key>)
    | AnyInspector(wrapped: Schema, addressParts: seq<Key>)
    | GenericAliasInspector(wrapped: Schema, addressParts: seq<Key>)
    | SequenceInspector(wrapped: Schema, addressParts: seq<Key>)
    | UnionInspector(alternatives: seq<Schema>, addressParts: seq<Key>)
    | PydanticModelInspector(wrapped: Schema, addressParts: seq<Key>)
  {
    /** The schema the node stands for; for a union node, the union of its alternatives. */
    function SchemaOf(): Schema
    {
      if UnionInspector? then UnionT(alternatives) else wrapped
    }

    /** The `address` property. */
    function Address(): string
    {
      Render(addressParts)
    }

    function NewAddress(key: Key): seq<Key>
    {
      Extend(addressParts, key)
    }

    /** The error `raise_error` raises: this node's address and the key. */
    function RaiseError(key: Key, message: Message): (e: Error)
      ensures e.InspectionError? && e.address == Address() && e.problematicKey == key
    {
      InspectionError(message, Address(), key)
    }

    /** `wrap_child`: classify `t` at this node's address extended by `key`. */
    function WrapChild(modelsAvailable: bool, t: Schema, key: Key): (r: Result<Inspector>)
      ensures r.Ok? ==> Depth(r.value.SchemaOf()) <= Depth(t)
      decreases Depth(t), 4
    {
      PickInspector(modelsAvailable, t, NewAddress(key))
    }

    /** `__getitem__` (and `__getattr__`, which forwards to it), per node kind. */
    function Access(modelsAvailable: bool, key: Key): (r: Result<Inspector>)
      ensures r.Ok? ==> Depth(r.value.SchemaOf()) <= Depth(SchemaOf())
      decreases Depth(SchemaOf()), 2
    {
      match this
      case OpaqueInspector(_, _) =>
        Err(RaiseError(key, NotSubscriptable))
      case AnyInspector(_, _) =>
        Ok(AnyInspector(AnyT, NewAddress(key)))
      case GenericAliasInspector(w, _) =>
        if OriginIsMapping(w) then
          if key.Str? then
            if |Args(w)| < 2 then Err(ArgIndexError) else WrapChild(modelsAvailable, Args(w)[1], key)
          else Err(RaiseError(key, NonStringKeyOnDict))
        else if key.Int? && OriginIsSequence(w) && |Args(w)| == 1 then
          WrapChild(modelsAvailable, Args(w)[0], key)
        else Err(RaiseError(key, NotSubscriptable))
      case SequenceInspector(_, _) =>
        if key.Int? then Ok(AnyInspector(AnyT, NewAddress(key)))
        else Err(RaiseError(key, NonIntKey))
      case UnionInspector(alts, _) =>
        TryAlternatives(modelsAvailable, alts, key)
      case PydanticModelInspector(w, _) =>
        if !key.Str? then Err(RaiseError(key, InvalidIdentifier))
        else FindField(modelsAvailable, ModelFields(w), key.s)
    }

    /** One round of the union loop: `pick_inspector(arg, self.address_parts).__getattr__(key)`. */
    function AttemptAlternative(modelsAvailable: bool, alt: Schema, key: Key): (r: Result<Inspector>)
      ensures r.Ok? ==> Depth(r.value.SchemaOf()) <= Depth(alt)
      decreases Depth(alt), 5
    {
      match PickInspector(modelsAvailable, alt, addressParts)
      case Err(e) => Err(e)
      case Ok(n) => n.Access(modelsAvailable, key)
    }

    /** The union loop: the first alternative that accepts the key wins;
        `InspectionError` and `TypeError` move on to the next one. */
    function TryAlternatives(modelsAvailable: bool, alts: seq<Schema>, key: Key): (r: Result<Inspector>)
      ensures r.Ok? ==> Depth(r.value.SchemaOf()) <= MaxDepth(alts)
      decreases 1 + MaxDepth(alts), 1, |alts|
    {
      if alts == [] then Err(RaiseError(key, NoSuchKey))
      else
        match AttemptAlternative(modelsAvailable, alts[0], key)
        case Ok(n) => Ok(n)
        case Err(e) => if Suppressed(e) then TryAlternatives(modelsAvailable, alts[1..], key) else Err(e)
    }

    /** The model loop: the first field, in declaration order, whose alias is `name`. */
    function FindField(modelsAvailable: bool, fields: seq<Field>, name: string): (r: Result<Inspector>)
      ensures r.Ok? ==> Depth(r.value.SchemaOf()) <= MaxFieldDepth(fields)
      decreases 1 + MaxFieldDepth(fields), 1, |fields|
    {
      if fields == [] then Err(RaiseError(Str(name), NoSuchKey))
      else if fields[0].alias == name then WrapChild(modelsAvailable, FieldSchema(fields[0]), Str(name))
      else FindField(modelsAvailable, fields[1..], name)
    }
  }

  /** `pick_inspector`: the kind is chosen in the fixed order Any, union,
      generic alias, `Sequence` subclass, model (only with the model library),
      anything else.  A mapping generic whose key type is not a `str`
      subclass is refused here, and a root model is replaced by its
      `"__root__"` child. */
  function PickInspector(modelsAvailable: bool, t: Schema, address: seq<Key>): (r: Result<Inspector>)
    ensures r.Ok? ==> Depth(r.value.SchemaOf()) <= Depth(t)
    decreases Depth(t), 3
  {
    match t
    case AnyT => Ok(AnyInspector(t, address))
    case UnionT(alts) => Ok(UnionInspector(alts, address))
    case Generic(origin, args) =>
      if origin.isMapping && |args| == 0 then Err(ArgIndexError)
      else if origin.isMapping && !IsStrSubclass(args[0]) then Err(SchemaTypeError)
      else Ok(GenericAliasInspector(t, address))
    case ClassT(_, _, sequenceLike, isModel, fields) =>
      if sequenceLike then Ok(SequenceInspector(t, address))
      else if modelsAvailable && isModel then
        if HasRootField(fields) then
          PydanticModelInspector(t, address).Access(modelsAvailable, Str(RootKey))
        else Ok(PydanticModelInspector(t, address))
      else Ok(OpaqueInspector(t, address))
  }

  /** A chain of accesses, `node[k0][k1]...`, as a caller writes it. */
  function InspectPath(modelsAvailable: bool, n: Inspector, path: seq<Key>): Result<Inspector>
    decreases |path|
  {
    if path == [] then Ok(n)
    else
      match n.Access(modelsAvailable, path[0])
      case Err(e) => Err(e)
      case Ok(child) => InspectPath(modelsAvailable, child, path[1..])
  }
}
