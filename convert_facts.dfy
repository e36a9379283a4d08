/**
 * What the checker of module Convert accepts and rejects, for every type
 * map it can run on: primitive tags, `any`, `null`, enums, unions, arrays,
 * objects with declared properties and an `additional` policy, references,
 * dates, the props maps and the error text.
 */
module ConvertFacts {
  import opened Wrappers
  import opened Convert

  // ---------------------------------------------------------------------
  // Tags.

  /** A string, number, `true` or `undefined` tag accepts a value exactly
    * when the value's typeof is the tag's own, and returns it unchanged. */
  lemma PrimitiveTag(ctx: Context, val: Json, t: Typ, key: string, parent: string)
    requires TypeMapOk(ctx.typeMap)
    requires (t.StrTag? && t.tag != "any") || t.NumTag? || t == BoolTag(true) || t == UndefinedTag
    ensures Transform(ctx, val, t, key, parent).Ok? <==> TypeOf(val) == TypeOfTyp(t)
    ensures Transform(ctx, val, t, key, parent).Ok? ==> Transform(ctx, val, t, key, parent).value == val
    ensures Transform(ctx, val, t, key, parent).Err? ==>
      Transform(ctx, val, t, key, parent).error == InvalidValue(One(t), val, key, parent)
  {
  }

  /** 0 and 3.14 are both numbers: every number tag accepts every number. */
  lemma NumberTagsAgree(ctx: Context, val: Json, x: real, y: real, key: string, parent: string)
    requires TypeMapOk(ctx.typeMap)
    ensures Transform(ctx, val, NumTag(x), key, parent).Ok? <==> val.Num?
    ensures Transform(ctx, val, NumTag(x), key, parent).Ok? == Transform(ctx, val, NumTag(y), key, parent).Ok?
  {
    PrimitiveTag(ctx, val, NumTag(x), key, parent);
    PrimitiveTag(ctx, val, NumTag(y), key, parent);
  }

  /** "any" passes every value through; `null` accepts `null` only; `false`
    * accepts nothing. */
  lemma AnyNullFalse(ctx: Context, val: Json, key: string, parent: string)
    requires TypeMapOk(ctx.typeMap)
    ensures Transform(ctx, val, StrTag("any"), key, parent) == Ok(val)
    ensures Transform(ctx, val, NullTag, key, parent).Ok? <==> val == Null
    ensures val != Null ==> Transform(ctx, val, NullTag, key, parent) == Err(InvalidValue(One(NullTag), val, key, parent))
    ensures Transform(ctx, val, BoolTag(false), key, parent) == Err(InvalidValue(One(BoolTag(false)), val, key, parent))
  {
  }

  /** Dates: `null` stays `null`, a number is never parsed and fails as a
    * primitive against the Date constructor, any other value becomes a
    * Date when it parses and is rejected otherwise. */
  lemma DateTagOutcomes(ctx: Context, val: Json, key: string, parent: string)
    requires TypeMapOk(ctx.typeMap)
    ensures val == Null ==> Transform(ctx, val, DateTag, key, parent) == Ok(Null)
    ensures val.Num? ==> Transform(ctx, val, DateTag, key, parent) == Err(InvalidValue(One(DateTag), val, key, parent))
    ensures val != Null && !val.Num? && DateIsValid(ctx, val) ==>
      Transform(ctx, val, DateTag, key, parent) == Ok(DateOf(val))
    ensures val != Null && !val.Num? && !DateIsValid(ctx, val) ==>
      Transform(ctx, val, DateTag, key, parent) == Err(InvalidValue(One(Literal("Date")), val, key, parent))
    ensures Transform(ctx, Undefined, DateTag, key, parent).Err?
  {
  }

  /** An enum accepts exactly its listed cases and names them in its error. */
  lemma EnumExact(ctx: Context, cases: seq<string>, val: Json, key: string, parent: string)
    requires TypeMapOk(ctx.typeMap)
    ensures Transform(ctx, val, Enum(cases), key, parent).Ok? <==> val.Str? && val.s in cases
    ensures Transform(ctx, val, Enum(cases), key, parent).Ok? ==> Transform(ctx, val, Enum(cases), key, parent).value == val
    ensures Transform(ctx, val, Enum(cases), key, parent).Err? ==>
      var e := Transform(ctx, val, Enum(cases), key, parent).error;
      e.expected.Many? && |e.expected.typs| == |cases| &&
      forall i :: 0 <= i < |cases| ==> e.expected.typs[i] == Literal(cases[i])
  {
  }

  // ---------------------------------------------------------------------
  // Unions.

  lemma {:induction false} UnionFrom(ctx: Context, ms: seq<Typ>, i: nat, val: Json, key: string, parent: string)
    requires TypeMapOk(ctx.typeMap)
    requires i <= |ms|
    ensures TransformUnion(ctx, ms, i, val, key, parent).Ok? <==>
      exists k :: i <= k < |ms| && Transform(ctx, val, ms[k], "", "").Ok?
    ensures TransformUnion(ctx, ms, i, val, key, parent).Ok? ==>
      exists k :: i <= k < |ms| && TransformUnion(ctx, ms, i, val, key, parent) == Transform(ctx, val, ms[k], "", "") &&
        forall j :: i <= j < k ==> Transform(ctx, val, ms[j], "", "").Err?
    ensures TransformUnion(ctx, ms, i, val, key, parent).Err? ==>
      TransformUnion(ctx, ms, i, val, key, parent) == Err(InvalidValue(Many(ms), val, key, parent))
    decreases |ms| - i
  {
    if i < |ms| {
      UnionFrom(ctx, ms, i + 1, val, key, parent);
      if Transform(ctx, val, ms[i], "", "").Ok? {
        assert TransformUnion(ctx, ms, i, val, key, parent) == Transform(ctx, val, ms[i], "", "");
      } else {
        assert TransformUnion(ctx, ms, i, val, key, parent) == TransformUnion(ctx, ms, i + 1, val, key, parent);
        if TransformUnion(ctx, ms, i + 1, val, key, parent).Ok? {
          var k :| i + 1 <= k < |ms| && TransformUnion(ctx, ms, i + 1, val, key, parent) == Transform(ctx, val, ms[k], "", "") &&
            forall j :: i + 1 <= j < k ==> Transform(ctx, val, ms[j], "", "").Err?;
          assert forall j :: i <= j < k ==> Transform(ctx, val, ms[j], "", "").Err?;
        }
      }
    }
  }

  /** A union returns the result of its first member that accepts the
    * value, and fails, listing its members, only when every member fails. */
  lemma UnionFirstSuccess(ctx: Context, ms: seq<Typ>, val: Json, key: string, parent: string)
    requires TypeMapOk(ctx.typeMap)
    ensures Transform(ctx, val, Union(ms), key, parent).Ok? <==>
      exists k :: 0 <= k < |ms| && Transform(ctx, val, ms[k], "", "").Ok?
    ensures Transform(ctx, val, Union(ms), key, parent).Ok? ==>
      exists k :: 0 <= k < |ms| && Transform(ctx, val, Union(ms), key, parent) == Transform(ctx, val, ms[k], "", "") &&
        forall j :: 0 <= j < k ==> Transform(ctx, val, ms[j], "", "").Err?
    ensures Transform(ctx, val, Union(ms), key, parent).Err? ==>
      Transform(ctx, val, Union(ms), key, parent) == Err(InvalidValue(Many(ms), val, key, parent))
  {
    UnionFrom(ctx, ms, 0, val, key, parent);
  }

  /** `[undefined, t]` makes t optional: a missing value passes. */
  lemma OptionalAcceptsUndefined(ctx: Context, t: Typ, key: string, parent: string)
    requires TypeMapOk(ctx.typeMap)
    ensures Transform(ctx, Undefined, Union([UndefinedTag, t]), key, parent) == Ok(Undefined)
  {
    UnionFrom(ctx, [UndefinedTag, t], 0, Undefined, key, parent);
  }

  // ---------------------------------------------------------------------
  // Arrays.

  /** One step of the map over the elements. */
  lemma ElementsStep(ctx: Context, items: Typ, val: Json, i: nat, x: Outcome, rest: Result<seq<Json>, Error>)
    requires TypeMapOk(ctx.typeMap)
    requires val.Arr? && i < |val.elems|
    requires x == Transform(ctx, val.elems[i], items, "", "") && rest == TransformElements(ctx, items, val, i + 1)
    ensures TransformElements(ctx, items, val, i) ==
      if x.Err? then Err(x.error) else if rest.Err? then Err(rest.error) else Ok([x.value] + rest.value)
  {
  }

  lemma {:induction false} ElementsFrom(ctx: Context, items: Typ, val: Json, i: nat)
    requires TypeMapOk(ctx.typeMap)
    requires val.Arr? && i <= |val.elems|
    ensures TransformElements(ctx, items, val, i).Ok? <==>
      forall k :: i <= k < |val.elems| ==> Transform(ctx, val.elems[k], items, "", "").Ok?
    ensures TransformElements(ctx, items, val, i).Ok? ==>
      var xs := TransformElements(ctx, items, val, i).value;
      |xs| == |val.elems| - i &&
      forall k :: i <= k < |val.elems| ==> xs[k - i] == Transform(ctx, val.elems[k], items, "", "").value
    ensures TransformElements(ctx, items, val, i).Err? ==>
      exists k :: i <= k < |val.elems| && Transform(ctx, val.elems[k], items, "", "").Err? &&
        TransformElements(ctx, items, val, i).error == Transform(ctx, val.elems[k], items, "", "").error
    decreases |val.elems| - i
  {
    if i < |val.elems| {
      ElementsFrom(ctx, items, val, i + 1);
      var x := Transform(ctx, val.elems[i], items, "", "");
      var rest := TransformElements(ctx, items, val, i + 1);
      var here := TransformElements(ctx, items, val, i);
      ElementsStep(ctx, items, val, i, x, rest);
      if x.Err? {
        assert here == Err(x.error);
      } else if rest.Err? {
        assert here == Err(rest.error);
      } else {
        assert here == Ok([x.value] + rest.value);
        forall k | i <= k < |val.elems|
          ensures here.value[k - i] == Transform(ctx, val.elems[k], items, "", "").value
        {
          if k > i {
            assert here.value[k - i] == rest.value[k - (i + 1)];
          }
        }
      }
    } else {
      assert TransformElements(ctx, items, val, i) == Ok([]);
    }
  }

  /** An array type rejects every non-array; it accepts an array exactly
    * when it accepts every element, and then returns the array of the
    * converted elements, in order.  A rejected array reports the error of
    * one of its elements. */
  lemma ArrayElementwise(ctx: Context, items: Typ, val: Json, key: string, parent: string)
    requires TypeMapOk(ctx.typeMap)
    ensures !val.Arr? ==> Transform(ctx, val, ArrayOf(items), key, parent) == Err(InvalidValue(One(Literal("array")), val, key, parent))
    ensures Transform(ctx, val, ArrayOf(items), key, parent).Ok? <==>
      val.Arr? && forall k :: 0 <= k < |val.elems| ==> Transform(ctx, val.elems[k], items, "", "").Ok?
    ensures Transform(ctx, val, ArrayOf(items), key, parent).Ok? ==>
      var r := Transform(ctx, val, ArrayOf(items), key, parent).value;
      r.Arr? && |r.elems| == |val.elems| &&
      forall k :: 0 <= k < |val.elems| ==> r.elems[k] == Transform(ctx, val.elems[k], items, "", "").value
    ensures val.Arr? && Transform(ctx, val, ArrayOf(items), key, parent).Err? ==>
      exists k :: 0 <= k < |val.elems| &&
        Transform(ctx, val, ArrayOf(items), key, parent) == Transform(ctx, val.elems[k], items, "", "")
  {
    assert Transform(ctx, val, ArrayOf(items), key, parent) == TransformArray(ctx, items, val, key, parent);
    if val.Arr? {
      ElementsFrom(ctx, items, val, 0);
      var t := TransformElements(ctx, items, val, 0);
      if t.Ok? {
        assert TransformArray(ctx, items, val, key, parent) == Ok(Arr(t.value));
      } else {
        assert TransformArray(ctx, items, val, key, parent) == Err(t.error);
      }
    }
  }

  // ---------------------------------------------------------------------
  // Objects.

  /** Every declared name, from the i-th on, passes its type. */
  predicate DeclaredOk(ctx: Context, pm: PropsMap, val: Json, ref: string, i: nat)
    requires TypeMapOk(ctx.typeMap)
  {
    forall k :: i <= k < |pm| ==> Transform(ctx, OwnValue(val, pm[k].name), pm[k].value.typ, pm[k].name, ref).Ok?
  }

  lemma DeclaredOkTwo(ctx: Context, pm: PropsMap, val: Json, ref: string)
    requires TypeMapOk(ctx.typeMap) && |pm| == 2
    ensures DeclaredOk(ctx, pm, val, ref, 0) <==>
      && Transform(ctx, OwnValue(val, pm[0].name), pm[0].value.typ, pm[0].name, ref).Ok?
      && Transform(ctx, OwnValue(val, pm[1].name), pm[1].value.typ, pm[1].name, ref).Ok?
  {
  }

  /** Every undeclared own member, from the j-th on, passes `additional`. */
  predicate ExtrasOk(ctx: Context, pm: PropsMap, additional: Typ, val: Json, ref: string, j: nat)
    requires TypeMapOk(ctx.typeMap)
  {
    var ms := OwnMembers(val);
    forall k :: j <= k < |ms| && ms[k].name !in Names(pm) ==> Transform(ctx, ms[k].value, additional, ms[k].name, ref).Ok?
  }

  lemma ExtrasOkStep(ctx: Context, pm: PropsMap, additional: Typ, val: Json, ref: string, j: nat)
    requires TypeMapOk(ctx.typeMap)
    requires j < |OwnMembers(val)|
    ensures ExtrasOk(ctx, pm, additional, val, ref, j) <==>
      (OwnMembers(val)[j].name !in Names(pm) ==>
         Transform(ctx, OwnMembers(val)[j].value, additional, OwnMembers(val)[j].name, ref).Ok?)
      && ExtrasOk(ctx, pm, additional, val, ref, j + 1)
  {
  }

  /** One step of the second forEach. */
  lemma ExtraMembersStep(ctx: Context, pm: PropsMap, additional: Typ, val: Json, ref: string,
                         j: nat, result: seq<Entry<Json>>)
    requires TypeMapOk(ctx.typeMap)
    requires val.Obj? || val.DateOf?
    requires j < |OwnMembers(val)|
    ensures var m := OwnMembers(val)[j];
      ExtraMembers(ctx, pm, additional, val, ref, j, result) ==
        if m.name in Names(pm) then ExtraMembers(ctx, pm, additional, val, ref, j + 1, result)
        else match Transform(ctx, m.value, additional, m.name, ref)
          case Err(e) => Err(e)
          case Ok(x) => ExtraMembers(ctx, pm, additional, val, ref, j + 1, Put(result, m.name, x))
  {
    var name := OwnMembers(val)[j].name;
    assert Find(pm, name).Some? <==> name in Names(pm) by {
      assert Lookup(pm, name).Some? <==> Find(pm, name).Some?;
    }
  }

  lemma {:induction false} ExtrasFrom(ctx: Context, pm: PropsMap, additional: Typ, val: Json, ref: string,
                                      j: nat, result: seq<Entry<Json>>)
    requires TypeMapOk(ctx.typeMap)
    requires val.Obj? || val.DateOf?
    requires j <= |OwnMembers(val)|
    ensures ExtraMembers(ctx, pm, additional, val, ref, j, result).Ok? <==> ExtrasOk(ctx, pm, additional, val, ref, j)
    ensures ExtraMembers(ctx, pm, additional, val, ref, j, result).Ok? ==>
      ExtraMembers(ctx, pm, additional, val, ref, j, result).value.Obj?
    decreases |OwnMembers(val)| - j
  {
    var ms := OwnMembers(val);
    if j < |ms| {
      ExtrasOkStep(ctx, pm, additional, val, ref, j);
      ExtraMembersStep(ctx, pm, additional, val, ref, j, result);
      var m := ms[j];
      if m.name in Names(pm) {
        ExtrasFrom(ctx, pm, additional, val, ref, j + 1, result);
      } else {
        var x := Transform(ctx, m.value, additional, m.name, ref);
        if x.Ok? {
          ExtrasFrom(ctx, pm, additional, val, ref, j + 1, Put(result, m.name, x.value));
        }
      }
    }
  }

  lemma {:induction false} DeclaredFrom(ctx: Context, pm: PropsMap, additional: Typ, val: Json, ref: string,
                                        i: nat, result: seq<Entry<Json>>)
    requires TypeMapOk(ctx.typeMap)
    requires val.Obj? || val.DateOf?
    requires i <= |pm|
    ensures DeclaredProps(ctx, pm, additional, val, ref, i, result).Ok? <==>
      DeclaredOk(ctx, pm, val, ref, i) && ExtrasOk(ctx, pm, additional, val, ref, 0)
    ensures DeclaredProps(ctx, pm, additional, val, ref, i, result).Ok? ==>
      DeclaredProps(ctx, pm, additional, val, ref, i, result).value.Obj?
    decreases |pm| - i
  {
    if i == |pm| {
      ExtrasFrom(ctx, pm, additional, val, ref, 0, result);
    } else {
      var x := Transform(ctx, OwnValue(val, pm[i].name), pm[i].value.typ, pm[i].name, ref);
      if x.Ok? {
        DeclaredFrom(ctx, pm, additional, val, ref, i + 1, Put(result, pm[i].value.key, x.value));
      }
    }
  }

  /** transformObject rejects `null`, primitives and arrays, naming the
    * reference (or "object"); otherwise it accepts exactly when every
    * declared name (missing ones read as `undefined`) passes its type and
    * every undeclared own member passes `additional`, and it returns an
    * object. */
  lemma ObjectAccepts(ctx: Context, pm: PropsMap, additional: Typ, val: Json, ref: string, key: string, parent: string)
    requires TypeMapOk(ctx.typeMap)
    ensures !(val.Obj? || val.DateOf?) ==>
      TransformObject(ctx, pm, additional, val, ref, key, parent)
        == Err(InvalidValue(One(Literal(if ref == "" then "object" else ref)), val, key, parent))
    ensures TransformObject(ctx, pm, additional, val, ref, key, parent).Ok? <==>
      (val.Obj? || val.DateOf?) && DeclaredOk(ctx, pm, val, ref, 0) && ExtrasOk(ctx, pm, additional, val, ref, 0)
    ensures TransformObject(ctx, pm, additional, val, ref, key, parent).Ok? ==>
      TransformObject(ctx, pm, additional, val, ref, key, parent).value.Obj?
  {
    if val.Obj? || val.DateOf? {
      DeclaredFrom(ctx, pm, additional, val, ref, 0, []);
    }
  }

  // What an accepted object holds.

  /** The undeclared own member names from the j-th member on: the names the second forEach writes. */
  function ExtraNames(pm: PropsMap, val: Json, j: nat): set<string>
  {
    var ms := OwnMembers(val);
    set k | j <= k < |ms| && ms[k].name !in Names(pm) :: ms[k].name
  }

  /** The keys the first forEach writes from the i-th declared name on. */
  function DeclaredKeys(pm: PropsMap, i: nat): set<string>
  {
    set k | i <= k < |pm| :: pm[k].value.key
  }

  lemma DeclaredKeysStep(pm: PropsMap, i: nat)
    requires i <= |pm|
    ensures i == |pm| ==> DeclaredKeys(pm, i) == {}
    ensures i < |pm| ==> DeclaredKeys(pm, i) == DeclaredKeys(pm, i + 1) + {pm[i].value.key}
    ensures i < |pm| && (forall k' :: i < k' < |pm| ==> pm[k'].value.key != pm[i].value.key) ==>
      pm[i].value.key !in DeclaredKeys(pm, i + 1)
  {
  }

  lemma ExtraNamesStep(pm: PropsMap, val: Json, j: nat)
    requires j <= |OwnMembers(val)|
    ensures j == |OwnMembers(val)| ==> ExtraNames(pm, val, j) == {}
    ensures j < |OwnMembers(val)| ==> var m := OwnMembers(val)[j];
      ExtraNames(pm, val, j) == ExtraNames(pm, val, j + 1) + (if m.name in Names(pm) then {} else {m.name})
    ensures var ms := OwnMembers(val);
      j < |ms| && (forall k' :: j < k' < |ms| ==> ms[k'].name != ms[j].name) ==> ms[j].name !in ExtraNames(pm, val, j + 1)
  {
  }

  /** No entry after the k-th has the k-th entry's name: its write is the last one. */
  predicate LastName<V>(d: seq<Entry<V>>, k: nat)
    requires k < |d|
  {
    forall k' :: k < k' < |d| ==> d[k'].name != d[k].name
  }

  /** No declared name after the k-th writes the k-th one's key. */
  predicate LastKey(pm: PropsMap, k: nat)
    requires k < |pm|
  {
    forall k' :: k < k' < |pm| ==> pm[k'].value.key != pm[k].value.key
  }

  /** Declared name k, converted against its type, is what `members` holds under its key. */
  predicate DeclaredStored(ctx: Context, pm: PropsMap, val: Json, ref: string, members: seq<Entry<Json>>, k: nat)
    requires TypeMapOk(ctx.typeMap)
    requires k < |pm|
  {
    var stored := Lookup(members, pm[k].value.key);
    stored.Some? && Transform(ctx, OwnValue(val, pm[k].name), pm[k].value.typ, pm[k].name, ref) == Ok(stored.value)
  }

  /** Own member k, converted against `additional`, is what `members` holds under its name. */
  predicate ExtraStored(ctx: Context, additional: Typ, val: Json, ref: string, members: seq<Entry<Json>>, k: nat)
    requires TypeMapOk(ctx.typeMap)
    requires k < |OwnMembers(val)|
  {
    var m := OwnMembers(val)[k];
    var stored := Lookup(members, m.name);
    stored.Some? && Transform(ctx, m.value, additional, m.name, ref) == Ok(stored.value)
  }

  /** Every undeclared own member from the j-th on whose write is the last
    * one of its name is stored, converted, in `members`. */
  predicate ExtrasStoredFrom(ctx: Context, pm: PropsMap, additional: Typ, val: Json, ref: string, j: nat,
                             members: seq<Entry<Json>>)
    requires TypeMapOk(ctx.typeMap)
  {
    var ms := OwnMembers(val);
    forall k :: j <= k < |ms| && ms[k].name !in Names(pm) && LastName(ms, k) ==>
      ExtraStored(ctx, additional, val, ref, members, k)
  }

  /** `members` is what the second forEach leaves when it starts at the
    * j-th own member with `result`: the undeclared names are added, each
    * holding its converted member, and every other name is as in `result`. */
  ghost predicate ExtrasWritten(ctx: Context, pm: PropsMap, additional: Typ, val: Json, ref: string, j: nat,
                          result: seq<Entry<Json>>, members: seq<Entry<Json>>)
    requires TypeMapOk(ctx.typeMap)
  {
    && Names(members) == Names(result) + ExtraNames(pm, val, j)
    && (forall n :: n !in ExtraNames(pm, val, j) ==> Lookup(members, n) == Lookup(result, n))
    && ExtrasStoredFrom(ctx, pm, additional, val, ref, j, members)
  }

  /** `members` is what the first forEach leaves when it starts at the i-th
    * declared name with `result`, followed by writes to the names in
    * `extra`: the declared keys are added, each holding its converted
    * declared value unless a later write replaces it. */
  ghost predicate DeclaredWritten(ctx: Context, pm: PropsMap, val: Json, ref: string, i: nat, extra: set<string>,
                            result: seq<Entry<Json>>, members: seq<Entry<Json>>)
    requires TypeMapOk(ctx.typeMap)
  {
    && Names(members) == Names(result) + DeclaredKeys(pm, i) + extra
    && (forall n :: n !in DeclaredKeys(pm, i) && n !in extra ==> Lookup(members, n) == Lookup(result, n))
    && (forall k :: i <= k < |pm| && LastKey(pm, k) && pm[k].value.key !in extra ==>
          DeclaredStored(ctx, pm, val, ref, members, k))
  }

  /** An assignment followed by writes to the names in `later`: the
    * assigned name keeps its value unless a later write replaces it. */
  lemma WriteStep(result: seq<Entry<Json>>, name: string, v: Json, put: seq<Entry<Json>>,
                  later: set<string>, members: seq<Entry<Json>>)
    requires put == Put(result, name, v)
    requires Names(members) == Names(put) + later
    requires forall n :: n !in later ==> Lookup(members, n) == Lookup(put, n)
    ensures Names(members) == Names(result) + {name} + later
    ensures forall n :: n !in later && n != name ==> Lookup(members, n) == Lookup(result, n)
    ensures name !in later ==> Lookup(members, name) == Some(v)
  {
  }

  /** The second forEach adds exactly the undeclared member names, each
    * holding its own member converted against `additional` (the last
    * assignment of a name wins), and leaves every other name as it was. */
  lemma {:induction false} ExtrasResult(ctx: Context, pm: PropsMap, additional: Typ, val: Json, ref: string,
                                        j: nat, result: seq<Entry<Json>>)
    requires TypeMapOk(ctx.typeMap)
    requires val.Obj? || val.DateOf?
    requires j <= |OwnMembers(val)|
    ensures var r := ExtraMembers(ctx, pm, additional, val, ref, j, result);
      r.Ok? ==> r.value.Obj? && ExtrasWritten(ctx, pm, additional, val, ref, j, result, r.value.members)
    decreases |OwnMembers(val)| - j, 1
  {
    var ms := OwnMembers(val);
    if j == |ms| {
      ExtraNamesStep(pm, val, j);
    } else if ms[j].name in Names(pm) {
      ExtrasResultSkip(ctx, pm, additional, val, ref, j, result);
    } else {
      ExtrasResultWrite(ctx, pm, additional, val, ref, j, result);
    }
  }

  lemma {:induction false} ExtrasResultSkip(ctx: Context, pm: PropsMap, additional: Typ, val: Json, ref: string,
                                            j: nat, result: seq<Entry<Json>>)
    requires TypeMapOk(ctx.typeMap)
    requires val.Obj? || val.DateOf?
    requires j < |OwnMembers(val)| && OwnMembers(val)[j].name in Names(pm)
    ensures var r := ExtraMembers(ctx, pm, additional, val, ref, j, result);
      r.Ok? ==> r.value.Obj? && ExtrasWritten(ctx, pm, additional, val, ref, j, result, r.value.members)
    decreases |OwnMembers(val)| - j, 0
  {
    ExtraMembersStep(ctx, pm, additional, val, ref, j, result);
    ExtrasResult(ctx, pm, additional, val, ref, j + 1, result);
    var r := ExtraMembers(ctx, pm, additional, val, ref, j, result);
    if r.Ok? {
      ExtrasSkip(ctx, pm, additional, val, ref, j, result, r.value.members);
    }
  }

  lemma {:induction false} ExtrasResultWrite(ctx: Context, pm: PropsMap, additional: Typ, val: Json, ref: string,
                                             j: nat, result: seq<Entry<Json>>)
    requires TypeMapOk(ctx.typeMap)
    requires val.Obj? || val.DateOf?
    requires j < |OwnMembers(val)| && OwnMembers(val)[j].name !in Names(pm)
    ensures var r := ExtraMembers(ctx, pm, additional, val, ref, j, result);
      r.Ok? ==> r.value.Obj? && ExtrasWritten(ctx, pm, additional, val, ref, j, result, r.value.members)
    decreases |OwnMembers(val)| - j, 0
  {
    var m := OwnMembers(val)[j];
    ExtraMembersStep(ctx, pm, additional, val, ref, j, result);
    var x := Transform(ctx, m.value, additional, m.name, ref);
    if x.Ok? {
      ExtrasResult(ctx, pm, additional, val, ref, j + 1, Put(result, m.name, x.value));
      var r := ExtraMembers(ctx, pm, additional, val, ref, j, result);
      if r.Ok? {
        ExtrasStep(ctx, pm, additional, val, ref, j, result, x, r.value.members);
      }
    }
  }

  /** A declared own member is skipped by the second forEach. */
  lemma ExtrasSkip(ctx: Context, pm: PropsMap, additional: Typ, val: Json, ref: string, j: nat,
                   result: seq<Entry<Json>>, members: seq<Entry<Json>>)
    requires TypeMapOk(ctx.typeMap)
    requires j < |OwnMembers(val)| && OwnMembers(val)[j].name in Names(pm)
    requires ExtrasWritten(ctx, pm, additional, val, ref, j + 1, result, members)
    ensures ExtrasWritten(ctx, pm, additional, val, ref, j, result, members)
  {
    ExtraNamesStep(pm, val, j);
  }

  /** One step of the second forEach: writing undeclared member j's value
    * under its name, before the writes that produced `members`. */
  lemma ExtrasStep(ctx: Context, pm: PropsMap, additional: Typ, val: Json, ref: string, j: nat,
                   result: seq<Entry<Json>>, x: Outcome, members: seq<Entry<Json>>)
    requires TypeMapOk(ctx.typeMap)
    requires j < |OwnMembers(val)| && OwnMembers(val)[j].name !in Names(pm)
    requires var m := OwnMembers(val)[j];
      x == Transform(ctx, m.value, additional, m.name, ref) && x.Ok?
    requires ExtrasWritten(ctx, pm, additional, val, ref, j + 1, Put(result, OwnMembers(val)[j].name, x.value), members)
    ensures ExtrasWritten(ctx, pm, additional, val, ref, j, result, members)
  {
    var ms := OwnMembers(val);
    var name := ms[j].name;
    var later := ExtraNames(pm, val, j + 1);
    ExtraNamesStep(pm, val, j);
    WriteStep(result, name, x.value, Put(result, name, x.value), later, members);
    assert Names(members) == Names(result) + ExtraNames(pm, val, j);
    forall n | n !in ExtraNames(pm, val, j)
      ensures Lookup(members, n) == Lookup(result, n)
    {
      assert n !in later && n != name;
    }
    forall k | j <= k < |ms| && ms[k].name !in Names(pm) && LastName(ms, k)
      ensures ExtraStored(ctx, additional, val, ref, members, k)
    {
      if k == j {
        assert name !in later;
        assert Lookup(members, name) == Some(x.value);
      }
    }
  }

  /** The first forEach writes every declared key, each holding the
    * converted value of its declared name (`undefined` when missing),
    * unless a later declared name or an undeclared member overwrites it;
    * the second forEach then adds the undeclared members. */
  lemma {:induction false} DeclaredResult(ctx: Context, pm: PropsMap, additional: Typ, val: Json, ref: string,
                                          i: nat, result: seq<Entry<Json>>)
    requires TypeMapOk(ctx.typeMap)
    requires val.Obj? || val.DateOf?
    requires i <= |pm|
    ensures var r := DeclaredProps(ctx, pm, additional, val, ref, i, result);
      r.Ok? ==>
        && r.value.Obj?
        && DeclaredWritten(ctx, pm, val, ref, i, ExtraNames(pm, val, 0), result, r.value.members)
        && ExtrasStoredFrom(ctx, pm, additional, val, ref, 0, r.value.members)
    decreases |pm| - i, 1
  {
    if i == |pm| {
      DeclaredKeysStep(pm, i);
      ExtrasResult(ctx, pm, additional, val, ref, 0, result);
    } else {
      DeclaredResultWrite(ctx, pm, additional, val, ref, i, result);
    }
  }

  lemma {:induction false} DeclaredResultWrite(ctx: Context, pm: PropsMap, additional: Typ, val: Json, ref: string,
                                               i: nat, result: seq<Entry<Json>>)
    requires TypeMapOk(ctx.typeMap)
    requires val.Obj? || val.DateOf?
    requires i < |pm|
    ensures var r := DeclaredProps(ctx, pm, additional, val, ref, i, result);
      r.Ok? ==>
        && r.value.Obj?
        && DeclaredWritten(ctx, pm, val, ref, i, ExtraNames(pm, val, 0), result, r.value.members)
        && ExtrasStoredFrom(ctx, pm, additional, val, ref, 0, r.value.members)
    decreases |pm| - i, 0
  {
    var x := Transform(ctx, OwnValue(val, pm[i].name), pm[i].value.typ, pm[i].name, ref);
    if x.Ok? {
      var put := Put(result, pm[i].value.key, x.value);
      assert DeclaredProps(ctx, pm, additional, val, ref, i, result) == DeclaredProps(ctx, pm, additional, val, ref, i + 1, put);
      DeclaredResult(ctx, pm, additional, val, ref, i + 1, put);
      var r := DeclaredProps(ctx, pm, additional, val, ref, i, result);
      if r.Ok? {
        DeclaredStep(ctx, pm, val, ref, i, result, x, ExtraNames(pm, val, 0), r.value.members);
      }
    }
  }

  /** One step of the first forEach: writing declared name i's value under
    * its key, before the writes that produced `members`. */
  lemma DeclaredStep(ctx: Context, pm: PropsMap, val: Json, ref: string, i: nat, result: seq<Entry<Json>>,
                     x: Outcome, extra: set<string>, members: seq<Entry<Json>>)
    requires TypeMapOk(ctx.typeMap)
    requires i < |pm|
    requires x == Transform(ctx, OwnValue(val, pm[i].name), pm[i].value.typ, pm[i].name, ref) && x.Ok?
    requires DeclaredWritten(ctx, pm, val, ref, i + 1, extra, Put(result, pm[i].value.key, x.value), members)
    ensures DeclaredWritten(ctx, pm, val, ref, i, extra, result, members)
  {
    DeclaredKeysStep(pm, i);
    var key := pm[i].value.key;
    var later := DeclaredKeys(pm, i + 1) + extra;
    WriteStep(result, key, x.value, Put(result, key, x.value), later, members);
    assert Names(members) == Names(result) + DeclaredKeys(pm, i) + extra;
    forall n | n !in DeclaredKeys(pm, i) && n !in extra
      ensures Lookup(members, n) == Lookup(result, n)
    {
      assert n !in later && n != key;
    }
    forall k | i <= k < |pm| && LastKey(pm, k) && pm[k].value.key !in extra
      ensures DeclaredStored(ctx, pm, val, ref, members, k)
    {
      if k == i {
        assert key !in later;
        assert Lookup(members, key) == Some(x.value);
      }
    }
  }

  /** transformObject returns an object whose names are exactly the
    * declared keys (the JavaScript names of the props map, when casting)
    * and the undeclared own member names.  Each declared key holds the
    * converted value of its declared name, unless an undeclared member of
    * the same name is written after it; each undeclared member holds its
    * value converted against `additional`. */
  lemma ObjectResult(ctx: Context, pm: PropsMap, additional: Typ, val: Json, ref: string, key: string, parent: string)
    requires TypeMapOk(ctx.typeMap)
    ensures var r, ms := TransformObject(ctx, pm, additional, val, ref, key, parent), OwnMembers(val);
      r.Ok? ==>
        && r.value.Obj?
        && Names(r.value.members) == DeclaredKeys(pm, 0) + ExtraNames(pm, val, 0)
        && (forall k :: 0 <= k < |pm| && LastKey(pm, k) && pm[k].value.key !in ExtraNames(pm, val, 0) ==>
              DeclaredStored(ctx, pm, val, ref, r.value.members, k))
        && (forall k :: 0 <= k < |ms| && ms[k].name !in Names(pm) && LastName(ms, k) ==>
              ExtraStored(ctx, additional, val, ref, r.value.members, k))
  {
    if val.Obj? || val.DateOf? {
      DeclaredResult(ctx, pm, additional, val, ref, 0, []);
      assert Names<Json>([]) == {};
    }
  }

  /** A declared key written last, and not overwritten by an undeclared
    * member, holds its declared name's converted value. */
  lemma ObjectFieldStored(ctx: Context, pm: PropsMap, additional: Typ, val: Json, ref: string, key: string, parent: string,
                          i: nat)
    requires TypeMapOk(ctx.typeMap)
    requires i < |pm| && LastKey(pm, i) && pm[i].value.key !in ExtraNames(pm, val, 0)
    ensures var r := TransformObject(ctx, pm, additional, val, ref, key, parent);
      r.Ok? ==>
        && r.value.Obj?
        && Lookup(r.value.members, pm[i].value.key).Some?
        && Transform(ctx, OwnValue(val, pm[i].name), pm[i].value.typ, pm[i].name, ref)
           == Ok(Lookup(r.value.members, pm[i].value.key).value)
  {
    ObjectResult(ctx, pm, additional, val, ref, key, parent);
  }

  /** When the first declared name fails its type, its error is the error
    * of the whole object. */
  lemma FirstDeclaredError(ctx: Context, pm: PropsMap, additional: Typ, val: Json, ref: string, key: string, parent: string)
    requires TypeMapOk(ctx.typeMap)
    requires (val.Obj? || val.DateOf?) && |pm| > 0
    requires Transform(ctx, OwnValue(val, pm[0].name), pm[0].value.typ, pm[0].name, ref).Err?
    ensures TransformObject(ctx, pm, additional, val, ref, key, parent) ==
      Transform(ctx, OwnValue(val, pm[0].name), pm[0].value.typ, pm[0].name, ref)
  {
  }

  /** A declared name absent from the value is checked as `undefined`: when
    * its type rejects `undefined`, the whole object is rejected. */
  lemma MissingRequiredRejects(ctx: Context, pm: PropsMap, additional: Typ, val: Json, ref: string,
                               key: string, parent: string, i: nat)
    requires TypeMapOk(ctx.typeMap)
    requires i < |pm| && pm[i].name !in Names(OwnMembers(val))
    requires Transform(ctx, Undefined, pm[i].value.typ, pm[i].name, ref).Err?
    ensures TransformObject(ctx, pm, additional, val, ref, key, parent).Err?
  {
    ObjectAccepts(ctx, pm, additional, val, ref, key, parent);
    assert OwnValue(val, pm[i].name) == Undefined;
  }

  /** With `additional` false, one undeclared own member rejects the object. */
  lemma UndeclaredRejects(ctx: Context, pm: PropsMap, val: Json, ref: string, key: string, parent: string, j: nat)
    requires TypeMapOk(ctx.typeMap)
    requires j < |OwnMembers(val)| && OwnMembers(val)[j].name !in Names(pm)
    ensures TransformObject(ctx, pm, BoolTag(false), val, ref, key, parent).Err?
  {
    ObjectAccepts(ctx, pm, BoolTag(false), val, ref, key, parent);
    var ms := OwnMembers(val);
    assert Transform(ctx, ms[j].value, BoolTag(false), ms[j].name, ref).Err?;
  }

  /** A closed object (`additional` false) whose declared types all reject
    * `undefined` accepts only values with exactly the declared names. */
  lemma ClosedObjectKeys(ctx: Context, pm: PropsMap, val: Json, ref: string, key: string, parent: string)
    requires TypeMapOk(ctx.typeMap)
    requires forall i :: 0 <= i < |pm| ==> Transform(ctx, Undefined, pm[i].value.typ, pm[i].name, ref).Err?
    ensures TransformObject(ctx, pm, BoolTag(false), val, ref, key, parent).Ok? ==>
      (val.Obj? || val.DateOf?) && Names(OwnMembers(val)) == Names(pm)
  {
    if TransformObject(ctx, pm, BoolTag(false), val, ref, key, parent).Ok? {
      ObjectAccepts(ctx, pm, BoolTag(false), val, ref, key, parent);
    }
  }

  /** A closed object whose declared types all reject `undefined` accepts
    * exactly the values with the declared names whose declared fields pass. */
  lemma ClosedObjectAccepts(ctx: Context, pm: PropsMap, val: Json, ref: string, key: string, parent: string)
    requires TypeMapOk(ctx.typeMap)
    requires forall i :: 0 <= i < |pm| ==> Transform(ctx, Undefined, pm[i].value.typ, pm[i].name, ref).Err?
    ensures TransformObject(ctx, pm, BoolTag(false), val, ref, key, parent).Ok? <==>
      (val.Obj? || val.DateOf?) && Names(OwnMembers(val)) == Names(pm) && DeclaredOk(ctx, pm, val, ref, 0)
  {
    ClosedObjectKeys(ctx, pm, val, ref, key, parent);
    ObjectAccepts(ctx, pm, BoolTag(false), val, ref, key, parent);
  }

  /** An open map `m(t)` accepts an object exactly when every own member
    * passes t. */
  lemma MapAccepts(ctx: Context, additional: Typ, val: Json, key: string, parent: string)
    requires TypeMapOk(ctx.typeMap)
    ensures Transform(ctx, val, M(additional), key, parent).Ok? <==>
      (val.Obj? || val.DateOf?) &&
      forall k :: 0 <= k < |OwnMembers(val)| ==>
        Transform(ctx, OwnMembers(val)[k].value, additional, OwnMembers(val)[k].name, "").Ok?
  {
    assert PropsMapOf([], ctx.dir) == [];
    ObjectAccepts(ctx, [], additional, val, "", key, parent);
  }

  // ---------------------------------------------------------------------
  // References.

  /** The outcome of following a name does not depend on which other names
    * were visited on the way, as long as it terminates. */
  lemma {:induction false} ResolveSeenIrrelevant(tm: TypeMap, name: string, small: set<string>, large: set<string>)
    requires small <= large
    requires ResolveName(tm, name, large).Resolved?
    ensures ResolveName(tm, name, small) == ResolveName(tm, name, large)
    decreases |tm.Keys - large|
  {
    if name in tm && tm[name].Ref? {
      assert tm.Keys - (large + {name}) == (tm.Keys - large) - {name};
      ResolveSeenIrrelevant(tm, tm[name].name, small + {name}, large + {name});
    }
  }

  /** A reference to a name bound to another reference is that reference. */
  lemma RefChain(ctx: Context, a: string, b: string, val: Json, key: string, parent: string)
    requires TypeMapOk(ctx.typeMap)
    requires a in ctx.typeMap && ctx.typeMap[a] == Ref(b)
    ensures Transform(ctx, val, Ref(a), key, parent) == Transform(ctx, val, Ref(b), key, parent)
  {
    var tm := ctx.typeMap;
    assert ResolveName(tm, a, {}) == ResolveName(tm, b, {} + {a});
    ResolveSeenIrrelevant(tm, b, {}, {} + {a});
  }

  /** A reference to a bound object descriptor checks the object under the
    * reference's name: it is the parent of every property's error. */
  lemma RefToObject(ctx: Context, name: string, val: Json, key: string, parent: string)
    requires TypeMapOk(ctx.typeMap)
    requires name in ctx.typeMap && ctx.typeMap[name].Object?
    ensures Transform(ctx, val, Ref(name), key, parent) ==
      TransformObject(ctx, PropsMapOf(ctx.typeMap[name].props, ctx.dir), ctx.typeMap[name].additional, val, name, key, parent)
  {
  }

  /** A reference to an object descriptor returns only objects, made from
    * objects; a value without members or an array is rejected under the
    * reference's name ("object" for the empty name). */
  lemma RefToObjectOutcome(ctx: Context, name: string, val: Json, key: string, parent: string)
    requires TypeMapOk(ctx.typeMap)
    requires name in ctx.typeMap && ctx.typeMap[name].Object?
    ensures var r := Transform(ctx, val, Ref(name), key, parent);
      && (r.Ok? ==> (val.Obj? || val.DateOf?) && r.value.Obj?)
      && (Scalar(val) || val.Arr? ==>
            r == Err(InvalidValue(One(Literal(if name == "" then "object" else name)), val, key, parent)))
  {
    var t := ctx.typeMap[name];
    RefToObject(ctx, name, val, key, parent);
    ObjectAccepts(ctx, PropsMapOf(t.props, ctx.dir), t.additional, val, name, key, parent);
  }

  /** A reference to a name the map lacks behaves as `undefined`. */
  lemma MissingRefIsUndefined(ctx: Context, name: string, val: Json, key: string, parent: string)
    requires TypeMapOk(ctx.typeMap)
    requires name !in ctx.typeMap
    ensures Transform(ctx, val, Ref(name), key, parent).Ok? <==> val == Undefined
    ensures val != Undefined ==> Transform(ctx, val, Ref(name), key, parent) == Err(InvalidValue(One(UndefinedTag), val, key, parent))
  {
  }

  /** Every required kind of field rejects a missing value: string,
    * number and Date tags, arrays, inline objects and references to
    * object descriptors. */
  lemma UndefinedRejected(ctx: Context, t: Typ, key: string, parent: string)
    requires TypeMapOk(ctx.typeMap)
    requires || (t.StrTag? && t.tag != "any") || t.NumTag? || t == DateTag || t.ArrayOf? || t.Object?
             || (t.Ref? && t.name in ctx.typeMap && ctx.typeMap[t.name].Object?)
    ensures Transform(ctx, Undefined, t, key, parent).Err?
  {
    if t.Ref? {
      RefToObject(ctx, t.name, Undefined, key, parent);
    }
  }

  // ---------------------------------------------------------------------
  // Props maps.

  /** The names the props give under `dir`. */
  function KeysOf(props: seq<Prop>, dir: Direction): set<string>
  {
    set i | 0 <= i < |props| :: KeyFrom(props[i], dir)
  }

  lemma KeysOfSnoc(init: seq<Prop>, p: Prop, dir: Direction)
    ensures KeysOf(init + [p], dir) == KeysOf(init, dir) + {KeyFrom(p, dir)}
  {
    var props := init + [p];
    forall n | n in KeysOf(props, dir) ensures n in KeysOf(init, dir) + {KeyFrom(p, dir)} {
      var i :| 0 <= i < |props| && KeyFrom(props[i], dir) == n;
      if i < |init| {
        assert init[i] == props[i];
      }
    }
    forall n | n in KeysOf(init, dir) ensures n in KeysOf(props, dir) {
      var i :| 0 <= i < |init| && KeyFrom(init[i], dir) == n;
      assert props[i] == init[i];
    }
    assert props[|init|] == p;
  }

  /** The props map has one entry per name of the props. */
  lemma {:induction false} PropsMapNames(props: seq<Prop>, dir: Direction)
    ensures Names(PropsMapOf(props, dir)) == KeysOf(props, dir)
  {
    if props != [] {
      var init, p := props[..|props| - 1], props[|props| - 1];
      PropsMapNames(init, dir);
      KeysOfSnoc(init, p, dir);
      assert init + [p] == props;
      var m0 := PropsMapOf(init, dir);
      assert PropsMapOf(props, dir) == Put(m0, KeyFrom(p, dir), Target(KeyTo(p, dir), p.typ));
    }
  }

  lemma {:induction false} PropsMapDistinct(props: seq<Prop>, dir: Direction)
    ensures DistinctNames(PropsMapOf(props, dir))
  {
    if props != [] {
      var init, p := props[..|props| - 1], props[|props| - 1];
      PropsMapDistinct(init, dir);
      PutKeepsDistinct(PropsMapOf(init, dir), KeyFrom(p, dir), Target(KeyTo(p, dir), p.typ));
    }
  }

  lemma PutKeepsDistinct<V>(d: seq<Entry<V>>, name: string, v: V)
    requires DistinctNames(d)
    ensures DistinctNames(Put(d, name, v))
  {
    var r := Put(d, name, v);
    match Find(d, name)
    case Some(i) =>
      assert r == d[i := Entry(name, v)];
      assert forall j :: 0 <= j < |d| ==> r[j].name == d[j].name;
    case None =>
      assert r == d + [Entry(name, v)];
  }

  lemma PutEntries<V>(d: seq<Entry<V>>, name: string, v: V)
    ensures forall e :: e in Put(d, name, v) ==> e in d || e == Entry(name, v)
  {
    match Find(d, name)
    case Some(i) =>
      assert Put(d, name, v) == d[i := Entry(name, v)];
    case None =>
  }

  /** Every entry of the props map comes from one of the props. */
  lemma {:induction false} PropsMapTargets(props: seq<Prop>, dir: Direction)
    ensures forall e :: e in PropsMapOf(props, dir) ==>
      exists p :: p in props && e == Entry(KeyFrom(p, dir), Target(KeyTo(p, dir), p.typ))
  {
    if props != [] {
      var init, p := props[..|props| - 1], props[|props| - 1];
      PropsMapTargets(init, dir);
      PutEntries(PropsMapOf(init, dir), KeyFrom(p, dir), Target(KeyTo(p, dir), p.typ));
      assert forall q :: q in init ==> q in props;
    }
  }

  /** No two props give the same name under `dir`. */
  predicate DistinctKeys(props: seq<Prop>, dir: Direction)
  {
    forall i, j :: 0 <= i < j < |props| ==> KeyFrom(props[i], dir) != KeyFrom(props[j], dir)
  }

  /** A cheap fingerprint of a name: its length, its first character and
    * its last but one, as one number.  Names with different fingerprints differ. */
  function Fingerprint(s: string): int
  {
    if |s| < 2 then |s| else |s| * 1000000 + (s[0] as int) * 1000 + (s[|s| - 2] as int)
  }

  /** Props whose JSON and JS names agree and whose fingerprints are
    * pairwise distinct have distinct keys in either direction. */
  lemma DistinctByFingerprint(props: seq<Prop>, dir: Direction, prints: seq<int>)
    requires |prints| == |props|
    requires forall k :: 0 <= k < |props| ==> props[k].json == props[k].js && Fingerprint(props[k].json) == prints[k]
    requires forall i, j :: 0 <= i < j < |prints| ==> prints[i] != prints[j]
    ensures DistinctKeys(props, dir)
  {
    forall i, j | 0 <= i < j < |props|
      ensures KeyFrom(props[i], dir) != KeyFrom(props[j], dir)
    {
      assert Fingerprint(KeyFrom(props[i], dir)) != Fingerprint(KeyFrom(props[j], dir));
    }
  }

  /** With distinct names, the props map lists the props in order. */
  lemma {:induction false} PropsMapInOrder(props: seq<Prop>, dir: Direction)
    requires DistinctKeys(props, dir)
    ensures |PropsMapOf(props, dir)| == |props|
    ensures forall i :: 0 <= i < |props| ==>
      PropsMapOf(props, dir)[i] == Entry(KeyFrom(props[i], dir), Target(KeyTo(props[i], dir), props[i].typ))
  {
    if props != [] {
      var init, p := props[..|props| - 1], props[|props| - 1];
      assert forall i :: 0 <= i < |init| ==> init[i] == props[i];
      PropsMapInOrder(init, dir);
      var m0 := PropsMapOf(init, dir);
      var e := Entry(KeyFrom(p, dir), Target(KeyTo(p, dir), p.typ));
      forall j | 0 <= j < |m0| ensures m0[j].name != KeyFrom(p, dir) {
        assert m0[j].name == KeyFrom(props[j], dir);
      }
      assert Find(m0, KeyFrom(p, dir)) == None;
      assert PropsMapOf(props, dir) == Put(m0, KeyFrom(p, dir), e.value);
      assert Put(m0, KeyFrom(p, dir), e.value) == m0 + [e];
      var m := m0 + [e];
      forall i | 0 <= i < |props|
        ensures m[i] == Entry(KeyFrom(props[i], dir), Target(KeyTo(props[i], dir), props[i].typ))
      {
        if i < |init| {
          assert m[i] == m0[i];
          assert m0[i] == Entry(KeyFrom(init[i], dir), Target(KeyTo(init[i], dir), init[i].typ));
          assert init[i] == props[i];
        } else {
          assert i == |init| && m[i] == e && props[i] == p;
        }
      }
    }
  }

  /** Entry `i` of the props map of props with distinct names. */
  lemma PropsMapAt(props: seq<Prop>, dir: Direction, i: nat)
    requires DistinctKeys(props, dir)
    requires i < |props|
    ensures |PropsMapOf(props, dir)| == |props|
    ensures PropsMapOf(props, dir)[i] == Entry(KeyFrom(props[i], dir), Target(KeyTo(props[i], dir), props[i].typ))
  {
    PropsMapInOrder(props, dir);
  }

  /** When every prop has the same JSON and JavaScript name, jsToJSON and
    * jsonToJS are the same map. */
  lemma {:induction false} SameNamesSameMaps(props: seq<Prop>)
    requires forall i :: 0 <= i < |props| ==> props[i].json == props[i].js
    ensures PropsMapOf(props, JsonToJS) == PropsMapOf(props, JsToJSON)
  {
    if props != [] {
      SameNamesSameMaps(props[..|props| - 1]);
    }
  }

  // ---------------------------------------------------------------------
  // Error text.

  /** The message starts with "Invalid value" and ends with the JSON text
    * of the value. */
  lemma MessageEnds(e: Error, shown: string)
    ensures "Invalid value" <= Message(e, shown)
    ensures |Message(e, shown)| >= |shown| && Message(e, shown)[|Message(e, shown)| - |shown|..] == shown
  {
    var head := "Invalid value"
      + (if e.key != "" then " for key \"" + e.key + "\"" else "")
      + (if e.parent != "" then " on " + e.parent else "")
      + ". Expected " + PrettyExpected(e.expected) + " but got ";
    assert Message(e, shown) == head + shown;
    assert Message(e, shown)[..|head|] == head;
    assert head[..13] == "Invalid value";
  }

  /** The key clause appears only for a non-empty key, the parent clause
    * only for a non-empty parent. */
  lemma MessageClauses(e: Error, shown: string)
    ensures e.key == "" && e.parent == "" ==>
      Message(e, shown) == "Invalid value" + ". Expected " + PrettyExpected(e.expected) + " but got " + shown
    ensures e.key != "" && e.parent == "" ==>
      Message(e, shown) == "Invalid value" + (" for key \"" + e.key + "\"") + ". Expected " + PrettyExpected(e.expected) + " but got " + shown
    ensures e.key == "" && e.parent != "" ==>
      Message(e, shown) == "Invalid value" + (" on " + e.parent) + ". Expected " + PrettyExpected(e.expected) + " but got " + shown
    ensures e.key != "" && e.parent != "" ==>
      Message(e, shown) == "Invalid value" + (" for key \"" + e.key + "\"") + (" on " + e.parent) + ". Expected "
        + PrettyExpected(e.expected) + " but got " + shown
  {
    var k := if e.key != "" then " for key \"" + e.key + "\"" else "";
    var p := if e.parent != "" then " on " + e.parent else "";
    var tail := ". Expected " + PrettyExpected(e.expected) + " but got " + shown;
    MessageShape(e, shown, k, p, tail);
    if k == "" {
      assert "Invalid value" + k == "Invalid value";
    }
    if p == "" {
      assert "Invalid value" + k + p == "Invalid value" + k;
    }
  }

  lemma MessageShape(e: Error, shown: string, k: string, p: string, tail: string)
    requires k == if e.key != "" then " for key \"" + e.key + "\"" else ""
    requires p == if e.parent != "" then " on " + e.parent else ""
    requires tail == ". Expected " + PrettyExpected(e.expected) + " but got " + shown
    ensures Message(e, shown) == "Invalid value" + k + p + tail
  {
  }

  /** How single descriptors are named in errors. */
  lemma PrettyNames(t: Typ, l: string)
    ensures PrettyList([UndefinedTag, t]) == "an optional " + PrettyTypeName(t)
    ensures PrettyTypeName(Literal(l)) == l
    ensures PrettyTypeName(StrTag(l)) == "string"
    ensures PrettyTypeName(NumTag(3.14)) == "number"
    ensures PrettyTypeName(BoolTag(false)) == "boolean"
    ensures PrettyTypeName(DateTag) == "function"
    ensures PrettyTypeName(ArrayOf(t)) == "object" && PrettyTypeName(Ref(l)) == "object"
  {
  }

  lemma JoinTwo(a: string, b: string)
    ensures JoinComma([a, b]) == a + ", " + b
  {
    assert [a, b][1..] == [b];
  }

  /** Joining one more name appends ", " and that name. */
  lemma {:induction false} JoinCommaSnoc(ss: seq<string>, s: string)
    requires |ss| >= 1
    ensures JoinComma(ss + [s]) == JoinComma(ss) + ", " + s
  {
    if |ss| == 1 {
      JoinTwo(ss[0], s);
      assert ss + [s] == [ss[0], s];
    } else {
      JoinCommaSnoc(ss[1..], s);
      assert (ss + [s])[1..] == ss[1..] + [s];
    }
  }

  /** An enum is named as the list of its cases, each a string: by the
    * typeof of every case, in order. */
  lemma EnumName(cases: seq<string>)
    ensures PrettyTypeName(Enum(cases)) == PrettyList(seq(|cases|, i requires 0 <= i < |cases| => StrTag(cases[i])))
  {
    var ts := seq(|cases|, i requires 0 <= i < |cases| => StrTag(cases[i]));
    assert seq(|ts|, i requires 0 <= i < |ts| => PrettyTypeName(ts[i])) == seq(|cases|, _ => "string");
  }

  /** A list that is not `[undefined, t]` is named "one of [...]"; with one
    * member it names that member. */
  lemma ListNameOne(t: Typ)
    ensures PrettyList([]) == "one of []"
    ensures PrettyList([t]) == "one of [" + PrettyTypeName(t) + "]"
  {
    assert seq(1, i requires 0 <= i < 1 => PrettyTypeName([t][i])) == [PrettyTypeName(t)];
  }

  /** A list is named member by member: one more member adds ", " and its
    * name before the closing bracket. */
  lemma ListNameSnoc(ts: seq<Typ>, t: Typ)
    requires |ts| >= 1
    requires !(|ts| == 1 && ts[0] == UndefinedTag) && !(|ts| == 2 && ts[0] == UndefinedTag)
    ensures var n := PrettyList(ts);
      && |n| >= 1 && n[|n| - 1] == ']'
      && PrettyList(ts + [t]) == n[..|n| - 1] + ", " + PrettyTypeName(t) + "]"
  {
    var names := seq(|ts|, i requires 0 <= i < |ts| => PrettyTypeName(ts[i]));
    var us := ts + [t];
    var unames := seq(|us|, i requires 0 <= i < |us| => PrettyTypeName(us[i]));
    assert unames == names + [PrettyTypeName(t)] by {
      assert forall i :: 0 <= i < |names| ==> unames[i] == names[i];
    }
    assert PrettyList(us) == "one of [" + JoinComma(unames) + "]";
    JoinCommaSnoc(names, PrettyTypeName(t));
    BracketedSnoc(PrettyList(ts), JoinComma(names), PrettyTypeName(t));
  }

  lemma BracketedSnoc(n: string, body: string, name: string)
    requires n == "one of [" + body + "]"
    ensures |n| >= 1 && n[|n| - 1] == ']'
    ensures "one of [" + (body + ", " + name) + "]" == n[..|n| - 1] + ", " + name + "]"
  {
    assert n[..|n| - 1] == "one of [" + body;
  }

  // ---------------------------------------------------------------------
  // The null tag's message.

  /** As written, rejecting a value against `null` cannot even build its
    * message: prettyTypeName(null) reads `.literal` of null and throws a
    * TypeError instead.  The corrected text names `null`. */
  lemma NullMismatchMessage(ctx: Context, val: Json, key: string, parent: string, shown: string)
    requires TypeMapOk(ctx.typeMap)
    requires val != Null
    ensures Transform(ctx, val, NullTag, key, parent).Err?
    ensures MessageAsWritten(Transform(ctx, val, NullTag, key, parent).error, shown) == None
    ensures key == "" && parent == "" ==>
      Message(Transform(ctx, val, NullTag, key, parent).error, shown) == "Invalid value. Expected null but got " + shown
  {
  }
}
