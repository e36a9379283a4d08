/**
 * cast reads each declared property under its JSON name and uncast under
 * its JavaScript name; those are the only places where the direction
 * matters. When every object descriptor in reach gives a property the same
 * name on both sides, as in both generated type maps, uncast checks and
 * returns exactly what cast does.
 */
module ConvertDirection {
  import opened Wrappers
  import opened Convert
  import opened ConvertFacts

  /** Every object descriptor inside `t` names each property the same in JSON and in JavaScript. */
  predicate SameNames(t: Typ)
    decreases t
  {
    match t
    case Union(ms) => forall i :: 0 <= i < |ms| ==> SameNames(ms[i])
    case ArrayOf(items) => SameNames(items)
    case Object(props, additional) =>
      && SameNames(additional)
      && forall i :: 0 <= i < |props| ==> props[i].json == props[i].js && SameNames(props[i].typ)
    case _ => true
  }

  predicate SameNamesMap(tm: TypeMap)
  {
    forall name :: name in tm ==> SameNames(tm[name])
  }

  /** A map built entry by entry keeps the property when every entry has it. */
  lemma SameNamesMapUpdate(tm: TypeMap, name: string, t: Typ)
    requires SameNamesMap(tm) && SameNames(t)
    ensures SameNamesMap(tm[name := t])
  {
  }

  /** In such a map every object descriptor builds one props map for both directions. */
  lemma PropsMapsAgreeFrom(tm: TypeMap, name: string, props: seq<Prop>, additional: Typ)
    requires SameNamesMap(tm) && name in tm && tm[name] == Object(props, additional)
    ensures PropsMapOf(props, JsonToJS) == PropsMapOf(props, JsToJSON)
  {
    assert SameNames(tm[name]);
    SameNamesSameMaps(props);
  }

  predicate SameTargets(pm: PropsMap)
  {
    forall k :: 0 <= k < |pm| ==> SameNames(pm[k].value.typ)
  }

  /** Two contexts that differ at most in their direction. */
  ghost predicate Agree(c1: Context, c2: Context)
  {
    && c1.typeMap == c2.typeMap && c1.parsesAsDate == c2.parsesAsDate
    && TypeMapOk(c1.typeMap) && SameNamesMap(c1.typeMap)
  }

  /** With the same names on both sides, both props maps carry the descriptor's own property types. */
  lemma SameNamesProps(props: seq<Prop>, dir1: Direction, dir2: Direction)
    requires forall i :: 0 <= i < |props| ==> props[i].json == props[i].js && SameNames(props[i].typ)
    ensures PropsMapOf(props, dir1) == PropsMapOf(props, dir2)
    ensures SameTargets(PropsMapOf(props, dir1))
  {
    SameNamesSameMaps(props);
    PropsMapTargets(props, dir1);
    var pm := PropsMapOf(props, dir1);
    forall k | 0 <= k < |pm| ensures SameNames(pm[k].value.typ) {
      assert pm[k] in pm;
    }
  }

  lemma {:induction false} TransformSame(c1: Context, c2: Context, val: Json, typ: Typ, key: string, parent: string)
    requires Agree(c1, c2) && SameNames(typ)
    ensures Transform(c1, val, typ, key, parent) == Transform(c2, val, typ, key, parent)
    decreases Weight(val), val, Height(typ), 3
  {
    if typ != StrTag("any") && typ != NullTag && typ != BoolTag(false) {
      var (ref, t) := Resolve(c1.typeMap, typ);
      assert Resolve(c2.typeMap, typ) == (ref, t);
      TransformComposite(c1, val, typ, key, parent);
      TransformComposite(c2, val, typ, key, parent);
      assert SameNames(t);
      match t
      case Union(ms) => UnionSame(c1, c2, ms, 0, val, key, parent);
      case ArrayOf(items) => ArraySame(c1, c2, items, val, key, parent);
      case Object(props, additional) => DescriptorSame(c1, c2, props, additional, val, ref, key, parent);
      case _ => LeafSame(c1, c2, val, typ, key, parent);
    }
  }

  /** What `transform` hands a union, an array or an object descriptor to. */
  lemma TransformComposite(ctx: Context, val: Json, typ: Typ, key: string, parent: string)
    requires TypeMapOk(ctx.typeMap) && typ != StrTag("any") && typ != NullTag && typ != BoolTag(false)
    ensures var (ref, t) := Resolve(ctx.typeMap, typ);
      && (t.Union? ==> Transform(ctx, val, typ, key, parent) == TransformUnion(ctx, t.members, 0, val, key, parent))
      && (t.ArrayOf? ==> Transform(ctx, val, typ, key, parent) == TransformArray(ctx, t.items, val, key, parent))
      && (t.Object? ==>
            Transform(ctx, val, typ, key, parent) ==
            TransformObject(ctx, PropsMapOf(t.props, ctx.dir), t.additional, val, ref, key, parent))
  {
  }

  /** A descriptor that resolves to neither a union, an array nor an object does not look at the direction. */
  lemma LeafSame(c1: Context, c2: Context, val: Json, typ: Typ, key: string, parent: string)
    requires TypeMapOk(c1.typeMap) && c1.typeMap == c2.typeMap && c1.parsesAsDate == c2.parsesAsDate
    requires var t := Resolve(c1.typeMap, typ).1; !t.Union? && !t.ArrayOf? && !t.Object?
    ensures Transform(c1, val, typ, key, parent) == Transform(c2, val, typ, key, parent)
  {
  }

  lemma {:induction false} UnionSame(c1: Context, c2: Context, ms: seq<Typ>, i: nat, val: Json, key: string, parent: string)
    requires Agree(c1, c2) && SameNames(Union(ms)) && i <= |ms|
    ensures TransformUnion(c1, ms, i, val, key, parent) == TransformUnion(c2, ms, i, val, key, parent)
    decreases Weight(val), val, Height(Union(ms)), 1, |ms| - i
  {
    if i < |ms| {
      TransformSame(c1, c2, val, ms[i], "", "");
      UnionSame(c1, c2, ms, i + 1, val, key, parent);
    }
  }

  lemma ArraySame(c1: Context, c2: Context, items: Typ, val: Json, key: string, parent: string)
    requires Agree(c1, c2) && SameNames(items)
    ensures TransformArray(c1, items, val, key, parent) == TransformArray(c2, items, val, key, parent)
    decreases Weight(val), val, 0, 2
  {
    if val.Arr? {
      ElementsSame(c1, c2, items, val, 0);
    }
  }

  lemma {:induction false} ElementsSame(c1: Context, c2: Context, items: Typ, val: Json, i: nat)
    requires Agree(c1, c2) && SameNames(items)
    requires val.Arr? && i <= |val.elems|
    ensures TransformElements(c1, items, val, i) == TransformElements(c2, items, val, i)
    decreases Weight(val), val, 0, 1, |val.elems| - i
  {
    if i < |val.elems| {
      TransformSame(c1, c2, val.elems[i], items, "", "");
      ElementsSame(c1, c2, items, val, i + 1);
    }
  }

  lemma DescriptorSame(c1: Context, c2: Context, props: seq<Prop>, additional: Typ, val: Json, ref: string, key: string, parent: string)
    requires Agree(c1, c2) && SameNames(Object(props, additional))
    ensures TransformObject(c1, PropsMapOf(props, c1.dir), additional, val, ref, key, parent) ==
            TransformObject(c2, PropsMapOf(props, c2.dir), additional, val, ref, key, parent)
    decreases Weight(val), val, 0, 2, 1
  {
    SameNamesProps(props, c1.dir, c2.dir);
    ObjectSame(c1, c2, PropsMapOf(props, c1.dir), additional, val, ref, key, parent);
  }

  lemma ObjectSame(c1: Context, c2: Context, pm: PropsMap, additional: Typ, val: Json, ref: string, key: string, parent: string)
    requires Agree(c1, c2) && SameTargets(pm) && SameNames(additional)
    ensures TransformObject(c1, pm, additional, val, ref, key, parent) == TransformObject(c2, pm, additional, val, ref, key, parent)
    decreases Weight(val), val, 0, 2, 0
  {
    if val.Obj? || val.DateOf? {
      forall k | 0 <= k < |pm|
        ensures Transform(c1, OwnValue(val, pm[k].name), pm[k].value.typ, pm[k].name, ref) ==
                Transform(c2, OwnValue(val, pm[k].name), pm[k].value.typ, pm[k].name, ref)
      {
        TransformSame(c1, c2, OwnValue(val, pm[k].name), pm[k].value.typ, pm[k].name, ref);
      }
      var ms := OwnMembers(val);
      forall k | 0 <= k < |ms|
        ensures Transform(c1, ms[k].value, additional, ms[k].name, ref) == Transform(c2, ms[k].value, additional, ms[k].name, ref)
      {
        TransformSame(c1, c2, ms[k].value, additional, ms[k].name, ref);
      }
      DeclaredSame(c1, c2, pm, additional, val, ref, 0, []);
    }
  }

  /** The declared properties from the i-th on are checked alike in both contexts. */
  predicate DeclaredAlike(c1: Context, c2: Context, pm: PropsMap, val: Json, ref: string)
    requires TypeMapOk(c1.typeMap) && TypeMapOk(c2.typeMap)
  {
    forall k :: 0 <= k < |pm| ==>
      Transform(c1, OwnValue(val, pm[k].name), pm[k].value.typ, pm[k].name, ref) ==
      Transform(c2, OwnValue(val, pm[k].name), pm[k].value.typ, pm[k].name, ref)
  }

  /** The own members are checked against `additional` alike in both contexts. */
  predicate ExtrasAlike(c1: Context, c2: Context, additional: Typ, val: Json, ref: string)
    requires TypeMapOk(c1.typeMap) && TypeMapOk(c2.typeMap)
  {
    var ms := OwnMembers(val);
    forall k :: 0 <= k < |ms| ==>
      Transform(c1, ms[k].value, additional, ms[k].name, ref) == Transform(c2, ms[k].value, additional, ms[k].name, ref)
  }

  lemma {:induction false} DeclaredSame(c1: Context, c2: Context, pm: PropsMap, additional: Typ, val: Json, ref: string,
                                        i: nat, result: seq<Entry<Json>>)
    requires TypeMapOk(c1.typeMap) && TypeMapOk(c2.typeMap)
    requires DeclaredAlike(c1, c2, pm, val, ref) && ExtrasAlike(c1, c2, additional, val, ref)
    requires (val.Obj? || val.DateOf?) && i <= |pm|
    ensures DeclaredProps(c1, pm, additional, val, ref, i, result) == DeclaredProps(c2, pm, additional, val, ref, i, result)
    decreases |pm| - i
  {
    if i == |pm| {
      ExtrasSame(c1, c2, pm, additional, val, ref, 0, result);
    } else {
      var x := Transform(c1, OwnValue(val, pm[i].name), pm[i].value.typ, pm[i].name, ref);
      if x.Ok? {
        DeclaredSame(c1, c2, pm, additional, val, ref, i + 1, Put(result, pm[i].value.key, x.value));
      }
    }
  }

  lemma {:induction false} ExtrasSame(c1: Context, c2: Context, pm: PropsMap, additional: Typ, val: Json, ref: string,
                                      j: nat, result: seq<Entry<Json>>)
    requires TypeMapOk(c1.typeMap) && TypeMapOk(c2.typeMap)
    requires ExtrasAlike(c1, c2, additional, val, ref)
    requires (val.Obj? || val.DateOf?) && j <= |OwnMembers(val)|
    ensures ExtraMembers(c1, pm, additional, val, ref, j, result) == ExtraMembers(c2, pm, additional, val, ref, j, result)
    decreases |OwnMembers(val)| - j
  {
    var ms := OwnMembers(val);
    if j < |ms| {
      if Find(pm, ms[j].name).Some? {
        ExtrasSame(c1, c2, pm, additional, val, ref, j + 1, result);
      } else {
        var x := Transform(c1, ms[j].value, additional, ms[j].name, ref);
        if x.Ok? {
          ExtrasSame(c1, c2, pm, additional, val, ref, j + 1, Put(result, ms[j].name, x.value));
        }
      }
    }
  }

  /** uncast accepts, rejects and returns exactly as cast does when no
    * descriptor renames a property. */
  lemma UncastIsCast(tm: TypeMap, parsesAsDate: Json -> bool, val: Json, typ: Typ)
    requires TypeMapOk(tm) && SameNamesMap(tm) && SameNames(typ)
    ensures Uncast(tm, parsesAsDate, val, typ) == Cast(tm, parsesAsDate, val, typ)
  {
    TransformSame(Context(tm, JsToJSON, parsesAsDate), Context(tm, JsonToJS, parsesAsDate), val, typ, "", "");
  }
}
