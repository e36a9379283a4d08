/**
 * The run-time shape checker that ships with the generated API types
 * (src/api/types/browse.ts and src/api/types/snapshots.ts carry identical
 * copies).  A JavaScript value is walked against a type descriptor; the
 * result is either the converted value or the first error raised.
 *
 * Descriptors are modelled as the datatype Typ, one constructor per kind of
 * JavaScript value the generated code uses as a descriptor, and `typeMap`
 * as a Dafny map from names to descriptors.  The memoised props maps of
 * object descriptors are the pure function PropsMapOf here; the caching
 * itself lives in module ConvertLoops.
 */
module Convert {
  import opened Wrappers

  /** A JavaScript value as JSON.parse produces it, plus `undefined` and
    * the Date objects the checker creates.  Object members are kept in
    * insertion order. */
  datatype Json =
    | Undefined
    | Null
    | Bool(b: bool)
    | Num(n: real)
    | Str(s: string)
    | Arr(elems: seq<Json>)
    | Obj(members: seq<Entry<Json>>)
    | DateOf(source: Json)   // new Date(source)

  /** One own property of an object, or one entry of a props map. */
  datatype Entry<V> = Entry(name: string, value: V)

  /** The answers of JavaScript's `typeof`. */
  datatype JsType = UndefinedType | ObjectType | BooleanType | NumberType | StringType | FunctionType

  function TypeOf(v: Json): JsType
  {
    match v
    case Undefined => UndefinedType
    case Bool(_) => BooleanType
    case Num(_) => NumberType
    case Str(_) => StringType
    case _ => ObjectType
  }

  function TypeName(t: JsType): string
  {
    match t
    case UndefinedType => "undefined"
    case ObjectType => "object"
    case BooleanType => "boolean"
    case NumberType => "number"
    case StringType => "string"
    case FunctionType => "function"
  }

  /** A type descriptor.  The first six constructors are the plain
    * JavaScript values the generated code uses as tags: a string ("any"
    * is the wildcard, any other string stands for `string`), a number, a
    * boolean (`false` forbids everything), `null`, `undefined` (the
    * optional member of a union) and the `Date` constructor.  The rest are
    * the array of enum cases and the objects built by u, a, o/m, r and l. */
  datatype Typ =
    | StrTag(tag: string)
    | NumTag(num: real)
    | BoolTag(flag: bool)
    | NullTag
    | UndefinedTag
    | DateTag
    | Enum(cases: seq<string>)
    | Union(members: seq<Typ>)
    | ArrayOf(items: Typ)
    | Object(props: seq<Prop>, additional: Typ)
    | Ref(name: string)
    | Literal(literal: string)

  /** A declared property: its name in JSON, its name in JavaScript, its type. */
  datatype Prop = Prop(json: string, js: string, typ: Typ)

  /** The `typeof` of a descriptor value itself. */
  function TypeOfTyp(t: Typ): JsType
  {
    match t
    case StrTag(_) => StringType
    case NumTag(_) => NumberType
    case BoolTag(_) => BooleanType
    case UndefinedTag => UndefinedType
    case DateTag => FunctionType
    case _ => ObjectType
  }

  // The descriptor builders.
  function L(literal: string): Typ { Literal(literal) }
  function A(items: Typ): Typ { ArrayOf(items) }
  function U(members: seq<Typ>): Typ { Union(members) }
  function O(props: seq<Prop>, additional: Typ): Typ { Object(props, additional) }
  function M(additional: Typ): Typ { Object([], additional) }
  function R(name: string): Typ { Ref(name) }

  // ---------------------------------------------------------------------
  // Ordered dictionaries: own properties of objects and props maps.

  /** Position of the first entry called `name`. */
  function Find<V>(d: seq<Entry<V>>, name: string): (r: Option<nat>)
    ensures r.Some? ==> r.value < |d| && d[r.value].name == name
    ensures r.Some? ==> forall j :: 0 <= j < r.value ==> d[j].name != name
    ensures r.None? <==> forall j :: 0 <= j < |d| ==> d[j].name != name
  {
    if d == [] then None
    else if d[0].name == name then Some(0)
    else
      var rest := Find(d[1..], name);
      assert forall j :: 1 <= j < |d| ==> d[j] == d[1..][j - 1];
      match rest
      case None => None
      case Some(j) => Some(j + 1)
  }

  function Names<V>(d: seq<Entry<V>>): set<string>
  {
    set i | 0 <= i < |d| :: d[i].name
  }

  /** The value stored under `name`, if any. */
  function Lookup<V>(d: seq<Entry<V>>, name: string): (r: Option<V>)
    ensures r.Some? <==> name in Names(d)
  {
    match Find(d, name)
    case Some(i) => Some(d[i].value)
    case None => None
  }

  /** Find looks only at the names. */
  lemma FindByNames<V>(d: seq<Entry<V>>, e: seq<Entry<V>>, name: string)
    requires |d| == |e| && forall j :: 0 <= j < |d| ==> d[j].name == e[j].name
    ensures Find(d, name) == Find(e, name)
  {
  }

  /** Property assignment `d[name] = v`: an existing property keeps its
    * place and gets the new value, a new one is appended. */
  function Put<V>(d: seq<Entry<V>>, name: string, v: V): (r: seq<Entry<V>>)
    ensures Lookup(r, name) == Some(v)
    ensures forall n :: n != name ==> Lookup(r, n) == Lookup(d, n)
    ensures Names(r) == Names(d) + {name}
    ensures |r| == if name in Names(d) then |d| else |d| + 1
  {
    match Find(d, name)
    case Some(i) =>
      var r := d[i := Entry(name, v)];
      assert forall j :: 0 <= j < |d| ==> r[j].name == d[j].name;
      assert forall n :: Find(r, n) == Find(d, n) by {
        forall n ensures Find(r, n) == Find(d, n) { FindByNames(r, d, n); }
      }
      assert Names(r) == Names(d) by {
        forall n | n in Names(d) ensures n in Names(r) {
          var j :| 0 <= j < |d| && d[j].name == n;
          assert r[j].name == n;
        }
      }
      r
    case None =>
      var r := d + [Entry(name, v)];
      assert r[|d|].name == name;
      assert forall j :: 0 <= j < |d| ==> r[j] == d[j];
      r
  }

  /** Member names distinct: the shape of a JavaScript object. */
  predicate DistinctNames<V>(d: seq<Entry<V>>)
  {
    forall i, j :: 0 <= i < j < |d| ==> d[i].name != d[j].name
  }

  // ---------------------------------------------------------------------
  // Props maps.

  /** jsonToJS maps JSON names to JavaScript names; jsToJSON the reverse. */
  datatype Direction = JsonToJS | JsToJSON

  /** What a props map holds for one name: the key to write and the type. */
  datatype Target = Target(key: string, typ: Typ)

  type PropsMap = seq<Entry<Target>>

  function KeyFrom(p: Prop, dir: Direction): string
  {
    if dir == JsonToJS then p.json else p.js
  }

  function KeyTo(p: Prop, dir: Direction): string
  {
    if dir == JsonToJS then p.js else p.json
  }

  /** The map `forEach` builds from `props`, one assignment per prop in
    * order: a later prop with the same name overwrites an earlier one. */
  function PropsMapOf(props: seq<Prop>, dir: Direction): PropsMap
  {
    if props == [] then []
    else
      var p := props[|props| - 1];
      Put(PropsMapOf(props[..|props| - 1], dir), KeyFrom(p, dir), Target(KeyTo(p, dir), p.typ))
  }

  // ---------------------------------------------------------------------
  // Resolving references.

  type TypeMap = map<string, Typ>

  datatype Resolution = Resolved(ref: string, target: Typ) | Cycle

  /** Follows `r(name)` through the type map, remembering the names already
    * visited; Cycle where the source would loop forever.  A name missing
    * from the map resolves to `undefined`. */
  function ResolveName(tm: TypeMap, name: string, seen: set<string>): (r: Resolution)
    ensures r.Resolved? ==> !r.target.Ref?
    ensures r.Resolved? && r.ref in tm ==> tm[r.ref] == r.target
    ensures r.Resolved? && r.ref !in tm ==> r.target == UndefinedTag
    decreases |tm.Keys - seen|
  {
    if name in seen then Cycle
    else if name !in tm then Resolved(name, UndefinedTag)
    else match tm[name]
      case Ref(next) =>
        assert tm.Keys - (seen + {name}) == (tm.Keys - seen) - {name};
        ResolveName(tm, next, seen + {name})
      case t => Resolved(name, t)
  }

  /** The type maps the checker can run on: every entry is neither a union
    * nor `null` (a `null` entry makes the source throw a TypeError), and
    * no chain of references loops. */
  predicate TypeMapOk(tm: TypeMap)
  {
    forall name :: name in tm ==>
      !tm[name].Union? && !tm[name].NullTag? && ResolveName(tm, name, {}).Resolved?
  }

  /** The reference loop at the head of `transform`: the last name
    * followed ("" when `typ` is not a reference) and the descriptor found. */
  function Resolve(tm: TypeMap, typ: Typ): (r: (string, Typ))
    requires TypeMapOk(tm)
    ensures !typ.Ref? ==> r == ("", typ)
    ensures typ.Ref? ==> !r.1.Ref? && !r.1.Union? && !r.1.NullTag?
    ensures typ.Ref? && r.0 in tm ==> tm[r.0] == r.1
    ensures typ.Ref? && r.0 !in tm ==> r.1 == UndefinedTag
  {
    if !typ.Ref? then ("", typ)
    else
      match ResolveName(tm, typ.name, {})
      case Resolved(ref, t) => (ref, t)
      case Cycle => assert false; ("", typ)
  }

  // ---------------------------------------------------------------------
  // Errors.

  /** The first argument of invalidValue: one descriptor, or a list of them
    * (a union's members, an enum's cases as literals). */
  datatype Expected = One(typ: Typ) | Many(typs: seq<Typ>)

  datatype Error = InvalidValue(expected: Expected, got: Json, key: string, parent: string)

  type Outcome = Result<Json, Error>

  function JoinComma(ss: seq<string>): string
  {
    if |ss| == 0 then ""
    else if |ss| == 1 then ss[0]
    else ss[0] + ", " + JoinComma(ss[1..])
  }

  /** prettyTypeName of one descriptor (not a list).  An enum is the array
    * of its cases, whose names are all strings.  Corrected for `null`,
    * which is named "null"; no other descriptor but a literal is. */
  function PrettyTypeName(t: Typ): (r: string)
    ensures !t.Literal? ==> (r == "null" <==> t == NullTag)
  {
    match t
    case Literal(l) => l
    case NullTag => "null"
    case Enum(cases) => "one of [" + JoinComma(seq(|cases|, _ => "string")) + "]"
    case _ => TypeName(TypeOfTyp(t))
  }

  /** prettyTypeName of a list of descriptors. */
  function PrettyList(ts: seq<Typ>): string
  {
    if |ts| == 2 && ts[0] == UndefinedTag then "an optional " + PrettyTypeName(ts[1])
    else "one of [" + JoinComma(seq(|ts|, i requires 0 <= i < |ts| => PrettyTypeName(ts[i]))) + "]"
  }

  function PrettyExpected(e: Expected): string
  {
    match e
    case One(t) => PrettyTypeName(t)
    case Many(ts) => PrettyList(ts)
  }

  /** The text of the thrown Error; `shown` is JSON.stringify of the value. */
  function Message(e: Error, shown: string): (r: string)
    ensures var tail := ". Expected " + PrettyExpected(e.expected) + " but got " + shown;
      |r| > |tail| && r[|r| - |tail|..] == tail
  {
    "Invalid value"
      + (if e.key != "" then " for key \"" + e.key + "\"" else "")
      + (if e.parent != "" then " on " + e.parent else "")
      + ". Expected " + PrettyExpected(e.expected) + " but got " + shown
  }

  /** prettyTypeName as written: for `null` the `typ.literal` test reads a
    * property of null and throws a TypeError (None) instead of naming it. */
  function PrettyTypeNameAsWritten(t: Typ): (r: Option<string>)
    ensures r.None? <==> t == NullTag
    ensures r.Some? ==> r.value == PrettyTypeName(t)
  {
    match t
    case NullTag => None
    case Enum(cases) => Some(PrettyTypeName(t))
    case Literal(l) => Some(l)
    case _ => Some(TypeName(TypeOfTyp(t)))
  }

  /** invalidValue as written: None when building the message throws. */
  function MessageAsWritten(e: Error, shown: string): (r: Option<string>)
    ensures r.None? <==> (e.expected == One(NullTag) || (e.expected.Many? && NullTag in e.expected.typs))
    ensures r.Some? ==> r.value == Message(e, shown)
  {
    match e.expected
    case One(t) =>
      if PrettyTypeNameAsWritten(t).None? then None else Some(Message(e, shown))
    case Many(ts) =>
      if exists i :: 0 <= i < |ts| && ts[i] == NullTag then None else Some(Message(e, shown))
  }

  // ---------------------------------------------------------------------
  // The checker.

  /** What one run of the checker sees: the type map, which props maps
    * it uses (cast uses jsonToJS, uncast jsToJSON), and whether
    * `new Date(v)` gives a valid date for a value that is not a number. */
  datatype Context = Context(typeMap: TypeMap, dir: Direction, parsesAsDate: Json -> bool)

  /** `new Date(undefined)` is always an Invalid Date; every other value is
    * up to the date parser. */
  predicate DateIsValid(ctx: Context, v: Json)
  {
    v != Undefined && ctx.parsesAsDate(v)
  }

  function Height(t: Typ): nat
  {
    match t
    case Union(ms) => 1 + MaxHeight(ms)
    case _ => 0
  }

  function MaxHeight(ms: seq<Typ>): (h: nat)
    ensures forall i :: 0 <= i < |ms| ==> Height(ms[i]) <= h
  {
    if ms == [] then 0
    else
      var first, rest := Height(ms[0]), MaxHeight(ms[1..]);
      assert forall i :: 1 <= i < |ms| ==> ms[i] == ms[1..][i - 1];
      if first < rest then rest else first
  }

  /** `undefined` weighs less than anything else: a missing property is
    * checked as `undefined` against a type that may be no smaller. */
  function Weight(v: Json): nat
  {
    if v == Undefined then 0 else 1
  }

  function OwnMembers(val: Json): seq<Entry<Json>>
  {
    if val.Obj? then val.members else []
  }

  /** `hasOwnProperty(val, name) ? val[name] : undefined` */
  function OwnValue(val: Json, name: string): Json
  {
    match Lookup(OwnMembers(val), name)
    case Some(v) => v
    case None => Undefined
  }

  /** A value without members: neither an array, an object nor a Date. */
  predicate Scalar(v: Json)
  {
    !v.Arr? && !v.Obj? && !v.DateOf?
  }

  /** transform(val, typ, getProps, key, parent) */
  function Transform(ctx: Context, val: Json, typ: Typ, key: string, parent: string): (r: Outcome)
    requires TypeMapOk(ctx.typeMap)
    ensures r.Err? && Scalar(val) ==> r.error.got == val && r.error.key == key && r.error.parent == parent
    decreases Weight(val), val, Height(typ), 3
  {
    if typ == StrTag("any") then Ok(val)
    else if typ == NullTag then
      if val == Null then Ok(val) else Err(InvalidValue(One(typ), val, key, parent))
    else if typ == BoolTag(false) then Err(InvalidValue(One(typ), val, key, parent))
    else
      var (ref, t) := Resolve(ctx.typeMap, typ);
      match t
      case Enum(cases) => TransformEnum(cases, val, key, parent)
      case Union(ms) => TransformUnion(ctx, ms, 0, val, key, parent)
      case ArrayOf(items) => TransformArray(ctx, items, val, key, parent)
      case Object(props, additional) =>
        TransformObject(ctx, PropsMapOf(props, ctx.dir), additional, val, ref, key, parent)
      case Literal(_) => Err(InvalidValue(One(t), val, key, parent))
      case DateTag =>
        if TypeOf(val) != NumberType then TransformDate(ctx, val, key, parent)
        else TransformPrimitive(t, val, key, parent)
      case _ => TransformPrimitive(t, val, key, parent)
  }

  function TransformPrimitive(t: Typ, val: Json, key: string, parent: string): (r: Outcome)
    ensures r.Ok? <==> TypeOfTyp(t) == TypeOf(val)
    ensures r.Ok? ==> r.value == val
    ensures r.Err? ==> r.error == InvalidValue(One(t), val, key, parent)
  {
    if TypeOfTyp(t) == TypeOf(val) then Ok(val)
    else Err(InvalidValue(One(t), val, key, parent))
  }

  /** The members are tried in order with empty key and parent; the first
    * success wins and the failures are discarded. */
  function TransformUnion(ctx: Context, ms: seq<Typ>, i: nat, val: Json, key: string, parent: string): (r: Outcome)
    requires TypeMapOk(ctx.typeMap)
    requires i <= |ms|
    ensures r.Err? ==> r.error == InvalidValue(Many(ms), val, key, parent)
    decreases Weight(val), val, Height(Union(ms)), 1, |ms| - i
  {
    if i == |ms| then Err(InvalidValue(Many(ms), val, key, parent))
    else
      var r := Transform(ctx, val, ms[i], "", "");
      if r.Ok? then r else TransformUnion(ctx, ms, i + 1, val, key, parent)
  }

  function TransformEnum(cases: seq<string>, val: Json, key: string, parent: string): (r: Outcome)
    ensures r.Ok? <==> val.Str? && val.s in cases
    ensures r.Ok? ==> r.value == val
    ensures r.Err? ==> r.error.got == val && r.error.expected.Many? && |r.error.expected.typs| == |cases|
    ensures r.Err? ==> forall i :: 0 <= i < |cases| ==> r.error.expected.typs[i] == Literal(cases[i])
  {
    if val.Str? && val.s in cases then Ok(val)
    else Err(InvalidValue(Many(seq(|cases|, i requires 0 <= i < |cases| => Literal(cases[i]))), val, key, parent))
  }

  function TransformArray(ctx: Context, items: Typ, val: Json, key: string, parent: string): (r: Outcome)
    requires TypeMapOk(ctx.typeMap)
    ensures r.Ok? ==> val.Arr? && r.value.Arr? && |r.value.elems| == |val.elems|
    ensures !val.Arr? ==> r.Err? && r.error.got == val && r.error.key == key && r.error.parent == parent
    decreases Weight(val), val, 0, 2
  {
    if !val.Arr? then Err(InvalidValue(One(Literal("array")), val, key, parent))
    else
      match TransformElements(ctx, items, val, 0)
      case Ok(xs) => Ok(Arr(xs))
      case Err(e) => Err(e)
  }

  /** `val.map(el => transform(el, typ, getProps))` from element i on. */
  function TransformElements(ctx: Context, items: Typ, val: Json, i: nat): (r: Result<seq<Json>, Error>)
    requires TypeMapOk(ctx.typeMap)
    requires val.Arr? && i <= |val.elems|
    ensures r.Ok? ==> |r.value| == |val.elems| - i
    decreases Weight(val), val, 0, 1, |val.elems| - i
  {
    if i == |val.elems| then Ok([])
    else
      match Transform(ctx, val.elems[i], items, "", "")
      case Err(e) => Err(e)
      case Ok(x) =>
        match TransformElements(ctx, items, val, i + 1)
        case Err(e) => Err(e)
        case Ok(xs) => Ok([x] + xs)
  }

  function TransformDate(ctx: Context, val: Json, key: string, parent: string): (r: Outcome)
    ensures r.Ok? <==> val == Null || DateIsValid(ctx, val)
    ensures r.Ok? ==> r.value == if val == Null then Null else DateOf(val)
    ensures r.Err? ==> r.error.got == val && r.error.key == key && r.error.parent == parent
  {
    if val == Null then Ok(Null)
    else if !DateIsValid(ctx, val) then Err(InvalidValue(One(Literal("Date")), val, key, parent))
    else Ok(DateOf(val))
  }

  /** transformObject: `ref` is the last reference followed ("" for an
    * inline descriptor); it names the object in errors. */
  function TransformObject(ctx: Context, pm: PropsMap, additional: Typ, val: Json, ref: string,
                           key: string, parent: string): (r: Outcome)
    requires TypeMapOk(ctx.typeMap)
    ensures r.Ok? ==> val.Obj? || val.DateOf?
    ensures Scalar(val) || val.Arr? ==> r.Err? && r.error.got == val && r.error.key == key && r.error.parent == parent
    decreases Weight(val), val, 0, 2
  {
    if val == Null || TypeOf(val) != ObjectType || val.Arr? then
      Err(InvalidValue(One(Literal(if ref == "" then "object" else ref)), val, key, parent))
    else DeclaredProps(ctx, pm, additional, val, ref, 0, [])
  }

  /** The first forEach, from the i-th declared name on, writing into `result`. */
  function DeclaredProps(ctx: Context, pm: PropsMap, additional: Typ, val: Json, ref: string,
                         i: nat, result: seq<Entry<Json>>): Outcome
    requires TypeMapOk(ctx.typeMap)
    requires val.Obj? || val.DateOf?
    requires i <= |pm|
    decreases Weight(val), val, 0, 1, |pm| - i
  {
    if i == |pm| then ExtraMembers(ctx, pm, additional, val, ref, 0, result)
    else
      var name := pm[i].name;
      match Transform(ctx, OwnValue(val, name), pm[i].value.typ, name, ref)
      case Err(e) => Err(e)
      case Ok(x) => DeclaredProps(ctx, pm, additional, val, ref, i + 1, Put(result, pm[i].value.key, x))
  }

  /** The second forEach, over the own members of `val` from the j-th on:
    * each name the props map does not declare is checked against
    * `additional` and copied. */
  function ExtraMembers(ctx: Context, pm: PropsMap, additional: Typ, val: Json, ref: string,
                        j: nat, result: seq<Entry<Json>>): Outcome
    requires TypeMapOk(ctx.typeMap)
    requires val.Obj? || val.DateOf?
    requires j <= |OwnMembers(val)|
    decreases Weight(val), val, 0, 0, |OwnMembers(val)| - j
  {
    var ms := OwnMembers(val);
    if j == |ms| then Ok(Obj(result))
    else if Find(pm, ms[j].name).Some? then ExtraMembers(ctx, pm, additional, val, ref, j + 1, result)
    else
      match Transform(ctx, ms[j].value, additional, ms[j].name, ref)
      case Err(e) => Err(e)
      case Ok(x) => ExtraMembers(ctx, pm, additional, val, ref, j + 1, Put(result, ms[j].name, x))
  }

  /** cast(val, typ) */
  function Cast(tm: TypeMap, parsesAsDate: Json -> bool, val: Json, typ: Typ): (r: Outcome)
    requires TypeMapOk(tm)
    ensures r.Err? && Scalar(val) ==> r.error.got == val && r.error.key == "" && r.error.parent == ""
  {
    Transform(Context(tm, JsonToJS, parsesAsDate), val, typ, "", "")
  }

  /** uncast(val, typ) */
  function Uncast(tm: TypeMap, parsesAsDate: Json -> bool, val: Json, typ: Typ): (r: Outcome)
    requires TypeMapOk(tm)
    ensures r.Err? && Scalar(val) ==> r.error.got == val && r.error.key == "" && r.error.parent == ""
  {
    Transform(Context(tm, JsToJSON, parsesAsDate), val, typ, "", "")
  }
}
