/** What the inspection engine promises, stated over the model of
    `type_inspector` and proved from its definitions. */
module InspectorProperties {

  import opened Address
  import opened TypeInspector

  // ---------------------------------------------------------------------
  // Classification

  /** The node kind that `pick_inspector` gives a schema, stated per kind:
      which schemas each kind of node may wrap. */
  predicate Classified(modelsAvailable: bool, n: Inspector)
  {
    match n
    case OpaqueInspector(w, _) => w.ClassT? && !w.sequenceLike && !(modelsAvailable && w.isModel)
    case AnyInspector(w, _) => w == AnyT
    case GenericAliasInspector(w, _) =>
      w.Generic? && (w.origin.isMapping ==> |w.args| > 0 && IsStrSubclass(w.args[0]))
    case SequenceInspector(w, _) => w.ClassT? && w.sequenceLike
    case UnionInspector(_, _) => true
    case PydanticModelInspector(w, _) =>
      modelsAvailable && w.ClassT? && !w.sequenceLike && w.isModel && !HasRootField(w.fields)
  }

  /** A model that `pick_inspector` replaces by its `"__root__"` child. */
  predicate IsRootModel(modelsAvailable: bool, t: Schema)
  {
    modelsAvailable && t.ClassT? && !t.sequenceLike && t.isModel && HasRootField(t.fields)
  }

  /** A node's kind is a function of its schema alone: classifying the schema
      of a classified node again, at the node's address, gives the node back. */
  lemma ReclassifyIsIdentity(modelsAvailable: bool, n: Inspector)
    requires Classified(modelsAvailable, n)
    ensures PickInspector(modelsAvailable, n.SchemaOf(), n.addressParts) == Ok(n)
  {
  }

  /** Two classified nodes with the same schema and address are the same node. */
  lemma KindDeterminedBySchema(modelsAvailable: bool, n1: Inspector, n2: Inspector)
    requires Classified(modelsAvailable, n1) && Classified(modelsAvailable, n2)
    requires n1.SchemaOf() == n2.SchemaOf() && n1.addressParts == n2.addressParts
    ensures n1 == n2
  {
    ReclassifyIsIdentity(modelsAvailable, n1);
    ReclassifyIsIdentity(modelsAvailable, n2);
  }

  /** Apart from root models, classification keeps the schema and the
      address, and it fails exactly for a mapping generic whose key argument
      is missing or is not a `str` subclass. */
  lemma PickKeepsSchema(modelsAvailable: bool, t: Schema, address: seq<Key>)
    requires !IsRootModel(modelsAvailable, t)
    ensures var r := PickInspector(modelsAvailable, t, address);
      && (r.Ok? ==> r.value.SchemaOf() == t && r.value.addressParts == address)
      && (r.Err? <==> OriginIsMapping(t) && (|t.args| == 0 || !IsStrSubclass(t.args[0])))
      && (r.Err? ==> r.error == if |t.args| == 0 then ArgIndexError else SchemaTypeError)
  {
  }

  /** A root model classifies as the access of `"__root__"` on its model node. */
  lemma RootModelUnwraps(modelsAvailable: bool, t: Schema, address: seq<Key>)
    requires IsRootModel(modelsAvailable, t)
    ensures PickInspector(modelsAvailable, t, address)
            == PydanticModelInspector(t, address).Access(modelsAvailable, Str(RootKey))
  {
  }

  /** The order of the tests: a class that is both a `Sequence` and a model
      is a sequence node; without the model library a model is opaque; and a
      mapping generic with a bad key type is refused whatever else it is. */
  lemma DispatchOrder(modelsAvailable: bool, t: Schema, address: seq<Key>)
    ensures t.ClassT? && t.sequenceLike ==>
            PickInspector(modelsAvailable, t, address) == Ok(SequenceInspector(t, address))
    ensures t.ClassT? && !t.sequenceLike && !modelsAvailable ==>
            PickInspector(modelsAvailable, t, address) == Ok(OpaqueInspector(t, address))
    ensures t.Generic? && t.origin.isMapping && |t.args| > 0 && !IsStrSubclass(t.args[0]) ==>
            PickInspector(modelsAvailable, t, address) == Err(SchemaTypeError)
  {
  }

  // ---------------------------------------------------------------------
  // Invariants of every access: kinds, breadcrumbs, error locations

  /** `n` keys `"__root__"`, added when root models are unwrapped. */
  function Roots(n: nat): (r: seq<Key>)
    ensures |r| == n && forall k :: 0 <= k < n ==> r[k] == Str(RootKey)
  {
    seq(n, _ => Str(RootKey))
  }

  lemma RootsAdd(x: nat, y: nat)
    ensures Roots(x) + Roots(y) == Roots(x + y)
  {
  }

  ghost predicate RootsAfter(child: seq<Key>, base: seq<Key>)
  {
    exists x: nat :: child == base + Roots(x)
  }

  /** The child's address is the parent's, then the key, with any
      `"__root__"` parts that root-model unwrapping adds around it. */
  ghost predicate KeyBetweenRoots(child: seq<Key>, parent: seq<Key>, key: Key)
  {
    exists x: nat, y: nat :: child == parent + Roots(x) + [key] + Roots(y)
  }

  ghost predicate PickOutcome(modelsAvailable: bool, base: seq<Key>, r: Result<Inspector>)
  {
    && (r.Ok? ==>
          && Classified(modelsAvailable, r.value)
          && RootsAfter(r.value.addressParts, base)
          && (!modelsAvailable ==> r.value.addressParts == base))
    && (r.Err? && r.error.InspectionError? ==>
          && modelsAvailable
          && r.error.problematicKey == Str(RootKey)
          && exists y: nat :: r.error.address == Render(base + Roots(y)))
  }

  ghost predicate ChildOf(modelsAvailable: bool, parent: Inspector, key: Key, child: Inspector)
  {
    && Classified(modelsAvailable, child)
    && KeyBetweenRoots(child.addressParts, parent.addressParts, key)
    && (!modelsAvailable ==> child.addressParts == parent.addressParts + [key])
  }

  ghost predicate AccessOutcome(modelsAvailable: bool, n: Inspector, key: Key, r: Result<Inspector>)
  {
    && (r.Ok? ==> ChildOf(modelsAvailable, n, key, r.value))
    && (r.Err? && r.error.InspectionError? ==>
          || (r.error.address == n.Address() && r.error.problematicKey == key)
          || (&& modelsAvailable
              && r.error.problematicKey == Str(RootKey)
              && exists y: nat :: r.error.address == Render(n.addressParts + [key] + Roots(y))))
  }

  /** Classification yields a classified node at the given address (followed
      by `"__root__"` parts for root models); its only access errors come
      from unwrapping a root model. */
  lemma {:induction false} PickInvariants(modelsAvailable: bool, t: Schema, address: seq<Key>)
    ensures PickOutcome(modelsAvailable, address, PickInspector(modelsAvailable, t, address))
    decreases Depth(t), 3
  {
    var r := PickInspector(modelsAvailable, t, address);
    if IsRootModel(modelsAvailable, t) {
      var n := PydanticModelInspector(t, address);
      AccessInvariants(modelsAvailable, n, Str(RootKey));
      if r.Ok? {
        var x: nat, y: nat :| r.value.addressParts == address + Roots(x) + [Str(RootKey)] + Roots(y);
        assert [Str(RootKey)] == Roots(1);
        RootsAdd(x, 1);
        RootsAdd(x + 1, y);
        assert r.value.addressParts == address + Roots(x + 1 + y);
      } else if r.error.InspectionError? {
        assert [Str(RootKey)] == Roots(1);
        if r.error.address == n.Address() {
          assert address == address + Roots(0);
        } else {
          var y: nat :| r.error.address == Render(address + [Str(RootKey)] + Roots(y));
          RootsAdd(1, y);
          assert address + [Str(RootKey)] + Roots(y) == address + Roots(1 + y);
        }
      }
    } else if r.Ok? {
      assert r.value.addressParts == address + Roots(0);
    }
  }

  lemma {:induction false} WrapChildInvariants(modelsAvailable: bool, n: Inspector, t: Schema, key: Key)
    ensures AccessOutcome(modelsAvailable, n, key, n.WrapChild(modelsAvailable, t, key))
    decreases Depth(t), 4
  {
    PickInvariants(modelsAvailable, t, n.NewAddress(key));
    var r := n.WrapChild(modelsAvailable, t, key);
    if r.Ok? {
      var x: nat :| r.value.addressParts == n.addressParts + [key] + Roots(x);
      assert r.value.addressParts == n.addressParts + Roots(0) + [key] + Roots(x);
    }
  }

  /** Every access returns a classified child whose address extends the
      parent's by the key, or an error; an access error names the parent's
      address and the offending key, unless it comes from unwrapping a root
      model.  Without the model library the child's address is exactly the
      parent's followed by the key. */
  lemma {:induction false} AccessInvariants(modelsAvailable: bool, n: Inspector, key: Key)
    ensures AccessOutcome(modelsAvailable, n, key, n.Access(modelsAvailable, key))
    decreases Depth(n.SchemaOf()), 2
  {
    var r := n.Access(modelsAvailable, key);
    match n
    case OpaqueInspector(_, _) =>
    case AnyInspector(_, parts) =>
      assert r.value.addressParts == parts + Roots(0) + [key] + Roots(0);
    case GenericAliasInspector(w, _) =>
      if OriginIsMapping(w) {
        if key.Str? && |Args(w)| >= 2 {
          WrapChildInvariants(modelsAvailable, n, Args(w)[1], key);
        }
      } else if key.Int? && OriginIsSequence(w) && |Args(w)| == 1 {
        WrapChildInvariants(modelsAvailable, n, Args(w)[0], key);
      }
    case SequenceInspector(_, parts) =>
      if key.Int? {
        assert r.value.addressParts == parts + Roots(0) + [key] + Roots(0);
      }
    case UnionInspector(alts, _) =>
      TryAlternativesInvariants(modelsAvailable, n, alts, key);
    case PydanticModelInspector(w, _) =>
      if key.Str? {
        FindFieldInvariants(modelsAvailable, n, ModelFields(w), key.s);
      }
  }

  /** Root parts after the base, then a key between root parts: the key
      still sits between root parts after the base. */
  lemma ComposeRoots(base: seq<Key>, mid: seq<Key>, child: seq<Key>, key: Key)
    requires RootsAfter(mid, base) && KeyBetweenRoots(child, mid, key)
    ensures KeyBetweenRoots(child, base, key)
  {
    var x: nat :| mid == base + Roots(x);
    var a: nat, b: nat :| child == mid + Roots(a) + [key] + Roots(b);
    RootsAdd(x, a);
    assert child == base + Roots(x + a) + [key] + Roots(b);
  }

  lemma {:induction false} AttemptInvariants(modelsAvailable: bool, n: Inspector, alt: Schema, key: Key)
    ensures var r := n.AttemptAlternative(modelsAvailable, alt, key);
      r.Ok? ==> ChildOf(modelsAvailable, n, key, r.value)
    decreases Depth(alt), 5
  {
    var p := PickInspector(modelsAvailable, alt, n.addressParts);
    PickInvariants(modelsAvailable, alt, n.addressParts);
    if p.Ok? {
      AccessInvariants(modelsAvailable, p.value, key);
      var r := p.value.Access(modelsAvailable, key);
      assert n.AttemptAlternative(modelsAvailable, alt, key) == r;
      if r.Ok? {
        ComposeRoots(n.addressParts, p.value.addressParts, r.value.addressParts, key);
      }
    }
  }

  lemma {:induction false} TryAlternativesInvariants(modelsAvailable: bool, n: Inspector, alts: seq<Schema>, key: Key)
    ensures AccessOutcome(modelsAvailable, n, key, n.TryAlternatives(modelsAvailable, alts, key))
    decreases 1 + MaxDepth(alts), 1, |alts|
  {
    if alts != [] {
      AttemptInvariants(modelsAvailable, n, alts[0], key);
      if Swallowed(n.AttemptAlternative(modelsAvailable, alts[0], key)) {
        TryAlternativesInvariants(modelsAvailable, n, alts[1..], key);
      }
    }
  }

  lemma {:induction false} FindFieldInvariants(modelsAvailable: bool, n: Inspector, fields: seq<Field>, name: string)
    ensures AccessOutcome(modelsAvailable, n, Str(name), n.FindField(modelsAvailable, fields, name))
    decreases 1 + MaxFieldDepth(fields), 1, |fields|
  {
    if fields != [] {
      if fields[0].alias == name {
        WrapChildInvariants(modelsAvailable, n, FieldSchema(fields[0]), Str(name));
      } else {
        FindFieldInvariants(modelsAvailable, n, fields[1..], name);
      }
    }
  }

  // ---------------------------------------------------------------------
  // Per-kind access rules

  /** Which keys a node kind accepts at all. */
  predicate AdmitsKey(n: Inspector, key: Key)
  {
    match n
    case OpaqueInspector(_, _) => false
    case AnyInspector(_, _) => true
    case GenericAliasInspector(w, _) =>
      if OriginIsMapping(w) then key.Str? else key.Int? && OriginIsSequence(w) && |Args(w)| == 1
    case SequenceInspector(_, _) => key.Int?
    case UnionInspector(alts, _) => alts != []
    case PydanticModelInspector(_, _) => key.Str?
  }

  /** A key the node kind does not accept fails at once, with this node's
      address and the key. */
  lemma AccessKeyDiscipline(modelsAvailable: bool, n: Inspector, key: Key)
    ensures var r := n.Access(modelsAvailable, key);
      !AdmitsKey(n, key) ==>
        r.Err? && r.error.InspectionError? && r.error.address == n.Address() && r.error.problematicKey == key
  {
  }

  /** An opaque leaf refuses every key. */
  lemma OpaqueRejectsEveryKey(modelsAvailable: bool, n: Inspector, key: Key)
    requires n.OpaqueInspector?
    ensures n.Access(modelsAvailable, key) == Err(InspectionError(NotSubscriptable, n.Address(), key))
  {
  }

  /** A bare `Sequence` class (`list`, `str`, `bytes`, ...) accepts exactly the
      int keys, and the element it yields is unconstrained. */
  lemma UntypedSequenceAccess(modelsAvailable: bool, n: Inspector, key: Key)
    requires n.SequenceInspector?
    ensures n.Access(modelsAvailable, key).Ok? <==> key.Int?
    ensures key.Int? ==> n.Access(modelsAvailable, key) == Ok(AnyInspector(AnyT, n.addressParts + [key]))
    ensures key.Str? ==> n.Access(modelsAvailable, key) == Err(InspectionError(NonIntKey, n.Address(), key))
  {
  }

  /** Access on a generic alias: a mapping takes string keys and classifies
      its value-type argument; a one-argument sequence takes int keys and
      classifies its element type; everything else is refused. */
  lemma GenericAccessRule(modelsAvailable: bool, n: Inspector, key: Key)
    requires n.GenericAliasInspector?
    ensures var w, r := n.wrapped, n.Access(modelsAvailable, key);
      && (OriginIsMapping(w) && key.Str? ==>
            r == if |Args(w)| < 2 then Err(ArgIndexError)
                 else PickInspector(modelsAvailable, Args(w)[1], n.addressParts + [key]))
      && (OriginIsMapping(w) && key.Int? ==>
            r == Err(InspectionError(NonStringKeyOnDict, n.Address(), key)))
      && (!OriginIsMapping(w) && OriginIsSequence(w) && |Args(w)| == 1 && key.Int? ==>
            r == PickInspector(modelsAvailable, Args(w)[0], n.addressParts + [key]))
      && (!OriginIsMapping(w) && !(OriginIsSequence(w) && |Args(w)| == 1 && key.Int?) ==>
            r == Err(InspectionError(NotSubscriptable, n.Address(), key)))
  {
  }

  /** The union loop stops at the first alternative that does not fail with
      a suppressed error and returns its outcome; when every alternative
      fails that way the union reports the key as missing at its own address. */
  lemma {:induction false} TryAlternativesFirstMatch(modelsAvailable: bool, n: Inspector, alts: seq<Schema>, key: Key)
    ensures (forall k :: 0 <= k < |alts| ==> Swallowed(n.AttemptAlternative(modelsAvailable, alts[k], key))) ==>
            n.TryAlternatives(modelsAvailable, alts, key) == Err(InspectionError(NoSuchKey, n.Address(), key))
    ensures forall i :: (0 <= i < |alts| && !Swallowed(n.AttemptAlternative(modelsAvailable, alts[i], key))
              && (forall k :: 0 <= k < i ==> Swallowed(n.AttemptAlternative(modelsAvailable, alts[k], key)))) ==>
            n.TryAlternatives(modelsAvailable, alts, key) == n.AttemptAlternative(modelsAvailable, alts[i], key)
    decreases |alts|
  {
    if alts != [] {
      var rest := alts[1..];
      TryAlternativesFirstMatch(modelsAvailable, n, rest, key);
      if Swallowed(n.AttemptAlternative(modelsAvailable, alts[0], key)) {
        assert forall k :: 0 <= k < |rest| ==> rest[k] == alts[k + 1];
        forall i | 0 < i < |alts| && !Swallowed(n.AttemptAlternative(modelsAvailable, alts[i], key))
                   && (forall k :: 0 <= k < i ==> Swallowed(n.AttemptAlternative(modelsAvailable, alts[k], key)))
          ensures n.TryAlternatives(modelsAvailable, alts, key) == n.AttemptAlternative(modelsAvailable, alts[i], key)
        {
          assert rest[i - 1] == alts[i];
          assert forall k :: 0 <= k < i - 1 ==> Swallowed(n.AttemptAlternative(modelsAvailable, rest[k], key));
        }
      }
    }
  }

  /** The model loop picks the first field, in declaration order, whose alias
      is the key, and classifies its outer type if it is composite and its
      inner type otherwise; no such field means the key is missing. */
  lemma {:induction false} FindFieldFirstMatch(modelsAvailable: bool, n: Inspector, fields: seq<Field>, name: string)
    ensures (forall k :: 0 <= k < |fields| ==> fields[k].alias != name) ==>
            n.FindField(modelsAvailable, fields, name) == Err(InspectionError(NoSuchKey, n.Address(), Str(name)))
    ensures forall i :: (0 <= i < |fields| && fields[i].alias == name
              && (forall k :: 0 <= k < i ==> fields[k].alias != name)) ==>
            n.FindField(modelsAvailable, fields, name)
            == PickInspector(modelsAvailable, FieldSchema(fields[i]), n.addressParts + [Str(name)])
    decreases |fields|
  {
    if fields != [] {
      var rest := fields[1..];
      FindFieldFirstMatch(modelsAvailable, n, rest, name);
      if fields[0].alias != name {
        assert forall k :: 0 <= k < |rest| ==> rest[k] == fields[k + 1];
        forall i | 0 < i < |fields| && fields[i].alias == name && (forall k :: 0 <= k < i ==> fields[k].alias != name)
          ensures n.FindField(modelsAvailable, fields, name)
                  == PickInspector(modelsAvailable, FieldSchema(fields[i]), n.addressParts + [Str(name)])
        {
          assert rest[i - 1] == fields[i];
        }
      }
    }
  }

  /** Access on a model node: non-string keys are invalid identifiers, and a
      string key resolves through the first field with that alias. */
  lemma ModelAccessRule(modelsAvailable: bool, n: Inspector, key: Key)
    requires n.PydanticModelInspector? && n.wrapped.ClassT?
    ensures key.Int? ==>
            n.Access(modelsAvailable, key) == Err(InspectionError(InvalidIdentifier, n.Address(), key))
    ensures key.Str? && (forall k :: 0 <= k < |n.wrapped.fields| ==> n.wrapped.fields[k].alias != key.s) ==>
            n.Access(modelsAvailable, key) == Err(InspectionError(NoSuchKey, n.Address(), key))
    ensures forall i :: (0 <= i < |n.wrapped.fields| && key.Str? && n.wrapped.fields[i].alias == key.s
              && (forall k :: 0 <= k < i ==> n.wrapped.fields[k].alias != key.s)) ==>
            n.Access(modelsAvailable, key)
            == PickInspector(modelsAvailable, FieldSchema(n.wrapped.fields[i]), n.addressParts + [key])
  {
    if key.Str? {
      FindFieldFirstMatch(modelsAvailable, n, n.wrapped.fields, key.s);
    }
  }

  // ---------------------------------------------------------------------
  // Paths

  /** The unconstrained type absorbs every path: any chain of keys succeeds,
      stays unconstrained, and records every key in the address. */
  lemma {:induction false} AnyAbsorbsEveryPath(modelsAvailable: bool, parts: seq<Key>, path: seq<Key>)
    ensures InspectPath(modelsAvailable, AnyInspector(AnyT, parts), path) == Ok(AnyInspector(AnyT, parts + path))
    decreases |path|
  {
    if path == [] {
      assert parts + path == parts;
    } else {
      AnyAbsorbsEveryPath(modelsAvailable, parts + [path[0]], path[1..]);
      assert parts + [path[0]] + path[1..] == parts + path;
    }
  }

  /** A path is checked key by key: inspecting `p + q` is inspecting `p`, then
      `q` from where `p` ended, and the first error stops the walk. */
  lemma {:induction false} InspectPathConcat(modelsAvailable: bool, n: Inspector, p: seq<Key>, q: seq<Key>)
    ensures InspectPath(modelsAvailable, n, p + q)
            == match InspectPath(modelsAvailable, n, p)
               case Err(e) => Err(e)
               case Ok(c) => InspectPath(modelsAvailable, c, q)
    decreases |p|
  {
    if p == [] {
      assert p + q == q;
    } else {
      assert (p + q)[0] == p[0];
      assert (p + q)[1..] == p[1..] + q;
      match n.Access(modelsAvailable, p[0])
      case Err(e) =>
      case Ok(c) => InspectPathConcat(modelsAvailable, c, p[1..], q);
    }
  }
}
