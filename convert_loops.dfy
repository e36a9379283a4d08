/**
 * The parts of the checker that work by updating state: the reference
 * loop at the head of `transform`, the try/catch loop of `transformUnion`,
 * the two `forEach` loops of `transformObject` that fill `result`, and the
 * object descriptor whose props maps are computed once and cached on it.
 * Each is proved to compute what the matching function of module Convert
 * specifies.
 */
module ConvertLoops {
  import opened Wrappers
  import opened Convert

  /** `while (typeof typ === "object" && typ.ref !== undefined) { ref = typ.ref; typ = typeMap[typ.ref]; }` */
  method ResolveRefs(tm: TypeMap, typ: Typ) returns (ref: string, t: Typ)
    requires TypeMapOk(tm)
    ensures (ref, t) == Resolve(tm, typ)
  {
    ref, t := "", typ;
    ghost var seen: set<string> := {};
    ghost var goal := if typ.Ref? then ResolveName(tm, typ.name, {}) else Resolved("", typ);
    assert goal.Resolved?;
    while t.Ref?
      invariant seen <= tm.Keys
      invariant t.Ref? ==> ResolveName(tm, t.name, seen) == goal
      invariant !t.Ref? ==> goal == Resolved(ref, t)
      decreases if t.Ref? then |tm.Keys - seen| + 1 else 0
    {
      ref := t.name;
      if ref in tm {
        assert ref !in seen;
        assert tm.Keys - (seen + {ref}) == (tm.Keys - seen) - {ref};
        seen := seen + {ref};
        t := tm[ref];
      } else {
        t := UndefinedTag;
      }
    }
  }

  /** transformUnion: the first member that does not throw gives the result. */
  method TransformUnionLoop(ctx: Context, ms: seq<Typ>, val: Json, key: string, parent: string) returns (r: Outcome)
    requires TypeMapOk(ctx.typeMap)
    ensures r == TransformUnion(ctx, ms, 0, val, key, parent)
  {
    for i := 0 to |ms|
      invariant TransformUnion(ctx, ms, 0, val, key, parent) == TransformUnion(ctx, ms, i, val, key, parent)
    {
      var attempt := Transform(ctx, val, ms[i], "", "");
      if attempt.Ok? {
        return attempt;
      }
    }
    return Err(InvalidValue(Many(ms), val, key, parent));
  }

  /** transformObject: `result` starts empty, the declared names are
    * written first, then the undeclared own members. */
  method TransformObjectLoops(ctx: Context, pm: PropsMap, additional: Typ, val: Json, ref: string,
                              key: string, parent: string) returns (r: Outcome)
    requires TypeMapOk(ctx.typeMap)
    ensures r == TransformObject(ctx, pm, additional, val, ref, key, parent)
  {
    if val == Null || TypeOf(val) != ObjectType || val.Arr? {
      return Err(InvalidValue(One(Literal(if ref == "" then "object" else ref)), val, key, parent));
    }
    var failure, result := DeclaredLoop(ctx, pm, additional, val, ref);
    if failure.Some? {
      return failure.value;
    }
    r := ExtrasLoop(ctx, pm, additional, val, ref, result);
  }

  /** The first forEach: each declared name is checked and written into
    * `result`; the first failure is returned as it is. */
  method DeclaredLoop(ctx: Context, pm: PropsMap, additional: Typ, val: Json, ref: string)
    returns (failure: Option<Outcome>, result: seq<Entry<Json>>)
    requires TypeMapOk(ctx.typeMap) && (val.Obj? || val.DateOf?)
    ensures failure.Some? ==> failure.value.Err? && failure.value == DeclaredProps(ctx, pm, additional, val, ref, 0, [])
    ensures failure.None? ==>
      DeclaredProps(ctx, pm, additional, val, ref, 0, []) == ExtraMembers(ctx, pm, additional, val, ref, 0, result)
  {
    result := [];
    for i := 0 to |pm|
      invariant DeclaredProps(ctx, pm, additional, val, ref, 0, []) == DeclaredProps(ctx, pm, additional, val, ref, i, result)
    {
      var name := pm[i].name;
      var x := Transform(ctx, OwnValue(val, name), pm[i].value.typ, name, ref);
      DeclaredStep(ctx, pm, additional, val, ref, i, result, x);
      if x.Err? {
        return Some(x), result;
      }
      result := Put(result, pm[i].value.key, x.value);
    }
    DeclaredDone(ctx, pm, additional, val, ref, result);
    failure := None;
  }

  /** One turn of the first forEach. */
  lemma DeclaredStep(ctx: Context, pm: PropsMap, additional: Typ, val: Json, ref: string, i: nat, result: seq<Entry<Json>>,
                     x: Outcome)
    requires TypeMapOk(ctx.typeMap) && (val.Obj? || val.DateOf?) && i < |pm|
    requires x == Transform(ctx, OwnValue(val, pm[i].name), pm[i].value.typ, pm[i].name, ref)
    ensures x.Err? ==> DeclaredProps(ctx, pm, additional, val, ref, i, result) == x
    ensures x.Ok? ==>
      DeclaredProps(ctx, pm, additional, val, ref, i, result) ==
      DeclaredProps(ctx, pm, additional, val, ref, i + 1, Put(result, pm[i].value.key, x.value))
  {
  }

  lemma DeclaredDone(ctx: Context, pm: PropsMap, additional: Typ, val: Json, ref: string, result: seq<Entry<Json>>)
    requires TypeMapOk(ctx.typeMap) && (val.Obj? || val.DateOf?)
    ensures DeclaredProps(ctx, pm, additional, val, ref, |pm|, result) == ExtraMembers(ctx, pm, additional, val, ref, 0, result)
  {
  }

  /** One turn of the second forEach. */
  lemma ExtraStep(ctx: Context, pm: PropsMap, additional: Typ, val: Json, ref: string, j: nat, result: seq<Entry<Json>>,
                  m: Entry<Json>, x: Outcome)
    requires TypeMapOk(ctx.typeMap) && (val.Obj? || val.DateOf?) && j < |OwnMembers(val)|
    requires m == OwnMembers(val)[j] && x == Transform(ctx, m.value, additional, m.name, ref)
    requires Find(pm, m.name).None?
    ensures x.Err? ==> ExtraMembers(ctx, pm, additional, val, ref, j, result) == x
    ensures x.Ok? ==>
      ExtraMembers(ctx, pm, additional, val, ref, j, result) ==
      ExtraMembers(ctx, pm, additional, val, ref, j + 1, Put(result, m.name, x.value))
  {
  }

  /** A declared name is skipped by the second forEach. */
  lemma ExtraSkip(ctx: Context, pm: PropsMap, additional: Typ, val: Json, ref: string, j: nat, result: seq<Entry<Json>>)
    requires TypeMapOk(ctx.typeMap) && (val.Obj? || val.DateOf?) && j < |OwnMembers(val)|
    requires Find(pm, OwnMembers(val)[j].name).Some?
    ensures ExtraMembers(ctx, pm, additional, val, ref, j, result) == ExtraMembers(ctx, pm, additional, val, ref, j + 1, result)
  {
  }

  lemma ExtraDone(ctx: Context, pm: PropsMap, additional: Typ, val: Json, ref: string, result: seq<Entry<Json>>)
    requires TypeMapOk(ctx.typeMap) && (val.Obj? || val.DateOf?)
    ensures ExtraMembers(ctx, pm, additional, val, ref, |OwnMembers(val)|, result) == Ok(Obj(result))
  {
  }

  /** The second forEach: each undeclared own member is checked against
    * `additional` and written into `result`. */
  method ExtrasLoop(ctx: Context, pm: PropsMap, additional: Typ, val: Json, ref: string, start: seq<Entry<Json>>)
    returns (r: Outcome)
    requires TypeMapOk(ctx.typeMap) && (val.Obj? || val.DateOf?)
    ensures r == ExtraMembers(ctx, pm, additional, val, ref, 0, start)
  {
    var result := start;
    var ms := OwnMembers(val);
    ghost var goal := ExtraMembers(ctx, pm, additional, val, ref, 0, start);
    for j := 0 to |ms|
      invariant goal == ExtraMembers(ctx, pm, additional, val, ref, j, result)
    {
      var m := ms[j];
      if Find(pm, m.name).None? {
        var x := Transform(ctx, m.value, additional, m.name, ref);
        ExtraStep(ctx, pm, additional, val, ref, j, result, m, x);
        if x.Err? {
          return x;
        }
        result := Put(result, m.name, x.value);
      } else {
        ExtraSkip(ctx, pm, additional, val, ref, j, result);
      }
    }
    ExtraDone(ctx, pm, additional, val, ref, result);
    r := Ok(Obj(result));
    assert r == goal;
  }

  /** `typ.props.forEach(p => map[from(p)] = { key: to(p), typ: p.typ })` */
  method BuildPropsMap(props: seq<Prop>, dir: Direction) returns (m: PropsMap)
    ensures m == PropsMapOf(props, dir)
  {
    m := [];
    for i := 0 to |props|
      invariant m == PropsMapOf(props[..i], dir)
    {
      assert props[..i + 1][..i] == props[..i];
      m := Put(m, KeyFrom(props[i], dir), Target(KeyTo(props[i], dir), props[i].typ));
    }
    assert props[..|props|] == props;
  }

  /** An object descriptor `o(props, additional)` with the two props maps
    * that jsonToJSProps and jsToJSONProps store on it. */
  class ObjectDescriptor {
    const props: seq<Prop>
    const additional: Typ
    var jsonToJS: Option<PropsMap>
    var jsToJSON: Option<PropsMap>

    /** A cached map is the one its props determine. */
    ghost predicate Valid()
      reads this
    {
      && (jsonToJS.Some? ==> jsonToJS.value == PropsMapOf(props, JsonToJS))
      && (jsToJSON.Some? ==> jsToJSON.value == PropsMapOf(props, JsToJSON))
    }

    constructor (props: seq<Prop>, additional: Typ)
      ensures Valid()
      ensures this.props == props && this.additional == additional
      ensures jsonToJS == None && jsToJSON == None
    {
      this.props := props;
      this.additional := additional;
      jsonToJS := None;
      jsToJSON := None;
    }

    method JsonToJSProps() returns (m: PropsMap)
      requires Valid()
      modifies this`jsonToJS
      ensures Valid()
      ensures m == PropsMapOf(props, JsonToJS)
      ensures jsonToJS == Some(m)
      ensures old(jsonToJS).Some? ==> jsonToJS == old(jsonToJS)
    {
      if jsonToJS.None? {
        var built := BuildPropsMap(props, JsonToJS);
        jsonToJS := Some(built);
      }
      m := jsonToJS.value;
    }

    method JsToJSONProps() returns (m: PropsMap)
      requires Valid()
      modifies this`jsToJSON
      ensures Valid()
      ensures m == PropsMapOf(props, JsToJSON)
      ensures jsToJSON == Some(m)
      ensures old(jsToJSON).Some? ==> jsToJSON == old(jsToJSON)
    {
      if jsToJSON.None? {
        var built := BuildPropsMap(props, JsToJSON);
        jsToJSON := Some(built);
      }
      m := jsToJSON.value;
    }
  }

  /** Asking twice gives the map cached by the first call. */
  method PropsAskedTwice(d: ObjectDescriptor) returns (first: PropsMap, second: PropsMap)
    requires d.Valid()
    modifies d
    ensures first == second == PropsMapOf(d.props, JsonToJS)
    ensures d.jsonToJS == Some(first) && d.jsToJSON == old(d.jsToJSON)
  {
    first := d.JsonToJSProps();
    second := d.JsonToJSProps();
  }
}
