/**
 * The type map of src/api/types/snapshots.ts, which describes the snapshot
 * list (`Types`), and what `Convert.toTypes` accepts against it.
 */
module SnapshotsTypes {
  import opened Wrappers
  import opened Convert
  import opened ConvertFacts
  import opened ConvertDirection

  const TypesDescriptor: Typ := O([
    Prop("Repository", "Repository", R("Repository")),
    Prop("Headers", "Headers", A(R("Header"))),
    Prop("MajorTypes", "MajorTypes", R("MajorTypes")),
    Prop("MimeTypes", "MimeTypes", R("MIMETypes")),
    Prop("Extensions", "Extensions", R("Extensions")),
    Prop("MajorTypesPct", "MajorTypesPct", R("MajorTypes")),
    Prop("MimeTypesPct", "MimeTypesPct", R("MIMETypes")),
    Prop("ExtensionsPct", "ExtensionsPct", R("Extensions"))
  ], BoolTag(false))

  const ExtensionsDescriptor: Typ := O([
    Prop("none", "none", NumTag(3.14))
  ], BoolTag(false))

  const HeaderDescriptor: Typ := O([
    Prop("IndexID", "IndexID", StrTag("")),
    Prop("Version", "Version", StrTag("")),
    Prop("CreationTime", "CreationTime", DateTag),
    Prop("CreationDuration", "CreationDuration", NumTag(0.0)),
    Prop("PublicKey", "PublicKey", StrTag("")),
    Prop("Tags", "Tags", A(StrTag("any"))),
    Prop("Hostname", "Hostname", StrTag("")),
    Prop("Username", "Username", StrTag("")),
    Prop("OperatingSystem", "OperatingSystem", StrTag("")),
    Prop("MachineID", "MachineID", StrTag("")),
    Prop("ProcessID", "ProcessID", NumTag(0.0)),
    Prop("CommandLine", "CommandLine", StrTag("")),
    Prop("ScanSize", "ScanSize", NumTag(0.0)),
    Prop("ScanProcessedSize", "ScanProcessedSize", NumTag(0.0)),
    Prop("ScannedDirectories", "ScannedDirectories", A(StrTag(""))),
    Prop("Index", "Index", R("Index")),
    Prop("VFS", "VFS", R("Index")),
    Prop("Metadata", "Metadata", R("Index")),
    Prop("ChunksCount", "ChunksCount", NumTag(0.0)),
    Prop("ChunksSize", "ChunksSize", NumTag(0.0)),
    Prop("ObjectsCount", "ObjectsCount", NumTag(0.0)),
    Prop("FilesCount", "FilesCount", NumTag(0.0)),
    Prop("DirectoriesCount", "DirectoriesCount", NumTag(0.0)),
    Prop("NonRegularCount", "NonRegularCount", NumTag(0.0)),
    Prop("PathnamesCount", "PathnamesCount", NumTag(0.0)),
    Prop("ObjectsTransferCount", "ObjectsTransferCount", NumTag(0.0)),
    Prop("ObjectsTransferSize", "ObjectsTransferSize", NumTag(0.0)),
    Prop("ChunksTransferCount", "ChunksTransferCount", NumTag(0.0)),
    Prop("ChunksTransferSize", "ChunksTransferSize", NumTag(0.0)),
    Prop("FileKind", "FileKind", R("MajorTypes")),
    Prop("FileType", "FileType", R("MIMETypes")),
    Prop("FileExtension", "FileExtension", R("Extensions")),
    Prop("FilePercentKind", "FilePercentKind", R("MajorTypes")),
    Prop("FilePercentType", "FilePercentType", R("MIMETypes")),
    Prop("FilePercentExtension", "FilePercentExtension", R("Extensions"))
  ], BoolTag(false))

  const MajorTypesDescriptor: Typ := O([
    Prop("application", "application", NumTag(0.0))
  ], BoolTag(false))

  const MIMETypesDescriptor: Typ := O([
    Prop("application/x-mach-binary", "application/x-mach-binary", NumTag(0.0))
  ], BoolTag(false))

  const IndexDescriptor: Typ := O([
    Prop("Type", "Type", StrTag("")),
    Prop("Version", "Version", StrTag("")),
    Prop("Checksum", "Checksum", A(NumTag(0.0))),
    Prop("Size", "Size", NumTag(0.0))
  ], BoolTag(false))

  const RepositoryDescriptor: Typ := O([
    Prop("CreationTime", "CreationTime", DateTag),
    Prop("RepositoryID", "RepositoryID", StrTag("")),
    Prop("Version", "Version", StrTag("")),
    Prop("Encryption", "Encryption", StrTag("")),
    Prop("EncryptionKey", "EncryptionKey", StrTag("")),
    Prop("Compression", "Compression", StrTag("")),
    Prop("Hashing", "Hashing", StrTag("")),
    Prop("Chunking", "Chunking", StrTag("")),
    Prop("ChunkingMin", "ChunkingMin", NumTag(0.0)),
    Prop("ChunkingNormal", "ChunkingNormal", NumTag(0.0)),
    Prop("ChunkingMax", "ChunkingMax", NumTag(0.0)),
    Prop("PackfileSize", "PackfileSize", NumTag(0.0))
  ], BoolTag(false))

  /** typeMap */
  function SnapshotsTypeMap(): (tm: TypeMap)
    ensures TypeMapOk(tm)
    ensures tm.Keys == {"Types", "Extensions", "Header", "MajorTypes", "MIMETypes", "Index", "Repository"}
    ensures tm["Types"] == TypesDescriptor && tm["MIMETypes"] == MIMETypesDescriptor
    ensures tm["Repository"] == RepositoryDescriptor
    ensures tm["MajorTypes"] == MajorTypesDescriptor && tm["Extensions"] == ExtensionsDescriptor
  {
    map[
      "Header" := HeaderDescriptor,
      "Index" := IndexDescriptor,
      "MajorTypes" := MajorTypesDescriptor,
      "Extensions" := ExtensionsDescriptor,
      "MIMETypes" := MIMETypesDescriptor,
      "Repository" := RepositoryDescriptor,
      "Types" := TypesDescriptor
    ]
  }

  /** Convert.toTypes on the result of JSON.parse. */
  function ToTypes(parsesAsDate: Json -> bool, val: Json): (r: Outcome)
    ensures r.Ok? ==> (val.Obj? || val.DateOf?) && r.value.Obj?
    ensures Scalar(val) || val.Arr? ==> r == Err(InvalidValue(One(Literal("Types")), val, "", ""))
  {
    RefToObjectOutcome(Context(SnapshotsTypeMap(), JsonToJS, parsesAsDate), "Types", val, "", "");
    Cast(SnapshotsTypeMap(), parsesAsDate, val, R("Types"))
  }

  /** Convert.typesToJson before JSON.stringify. */
  function TypesToJson(parsesAsDate: Json -> bool, val: Json): Outcome
  {
    Uncast(SnapshotsTypeMap(), parsesAsDate, val, R("Types"))
  }

  // ---------------------------------------------------------------------
  // What the map accepts.

  /** The names Types declares. */
  const TypesKeys: set<string> := {"Repository", "Headers", "MajorTypes", "MimeTypes", "Extensions",
                                   "MajorTypesPct", "MimeTypesPct", "ExtensionsPct"}

  lemma TypesKeysOf(dir: Direction)
    ensures KeysOf(TypesDescriptor.props, dir) == TypesKeys
  {
    var props := TypesDescriptor.props;
    assert forall i :: 0 <= i < |props| ==> KeyFrom(props[i], dir) == props[i].json;
    assert props[0].json == "Repository" && props[1].json == "Headers" && props[2].json == "MajorTypes";
    assert props[3].json == "MimeTypes" && props[4].json == "Extensions" && props[5].json == "MajorTypesPct";
    assert props[6].json == "MimeTypesPct" && props[7].json == "ExtensionsPct";
  }

  lemma TypesPropKinds()
    ensures forall p :: p in TypesDescriptor.props ==>
      p.typ.ArrayOf? || (p.typ.Ref? && p.typ.name in {"Repository", "MajorTypes", "MIMETypes", "Extensions"})
  {
  }

  /** A type map that binds Types and MIMETypes as the generated one does,
    * and binds the other names Types refers to to objects. */
  predicate TypesBound(tm: TypeMap)
  {
    && TypeMapOk(tm)
    && "Types" in tm && tm["Types"] == TypesDescriptor
    && "MIMETypes" in tm && tm["MIMETypes"] == MIMETypesDescriptor
    && "Repository" in tm && tm["Repository"].Object?
    && "MajorTypes" in tm && tm["MajorTypes"].Object?
    && "Extensions" in tm && tm["Extensions"].Object?
  }

  lemma SnapshotsTypesBound()
    ensures TypesBound(SnapshotsTypeMap())
  {
  }

  /** Every field of Types is required: each is a reference to an object
    * descriptor or an array. */
  lemma TypesPropRequired(ctx: Context, p: Prop, key: string)
    requires TypesBound(ctx.typeMap)
    requires p in TypesDescriptor.props
    ensures Transform(ctx, Undefined, p.typ, key, "Types").Err?
  {
    TypesPropKinds();
    UndefinedRejected(ctx, p.typ, key, "Types");
  }

  lemma TypesFieldsRequired(ctx: Context, e: Entry<Target>)
    requires TypesBound(ctx.typeMap)
    requires e in PropsMapOf(TypesDescriptor.props, ctx.dir)
    ensures Transform(ctx, Undefined, e.value.typ, e.name, "Types").Err?
  {
    var props := TypesDescriptor.props;
    PropsMapTargets(props, ctx.dir);
    var p :| p in props && e == Entry(KeyFrom(p, ctx.dir), Target(KeyTo(p, ctx.dir), p.typ));
    TypesPropRequired(ctx, p, e.name);
  }

  /** A Types document carries exactly its eight declared keys: a missing
    * key or an extra key rejects it. */
  lemma TypesExactKeys(ctx: Context, val: Json, key: string, parent: string)
    requires TypesBound(ctx.typeMap)
    ensures Transform(ctx, val, Ref("Types"), key, parent).Ok? ==> val.Obj? && Names(val.members) == TypesKeys
  {
    var props := TypesDescriptor.props;
    var pm := PropsMapOf(props, ctx.dir);
    RefToObject(ctx, "Types", val, key, parent);
    PropsMapNames(props, ctx.dir);
    TypesKeysOf(ctx.dir);
    forall i | 0 <= i < |pm| ensures Transform(ctx, Undefined, pm[i].value.typ, pm[i].name, "Types").Err? {
      TypesFieldsRequired(ctx, pm[i]);
    }
    ClosedObjectKeys(ctx, pm, val, "Types", key, parent);
  }

  const MimeKey: string := "application/x-mach-binary"

  lemma MIMETypesPropsMap(dir: Direction)
    ensures PropsMapOf(MIMETypesDescriptor.props, dir) == [Entry(MimeKey, Target(MimeKey, NumTag(0.0)))]
  {
  }

  /** MIMETypes accepts exactly the objects whose only key is
    * "application/x-mach-binary", holding a number: any other key rejects. */
  lemma MIMETypesExactFrom(ctx: Context, val: Json, key: string, parent: string)
    requires TypeMapOk(ctx.typeMap) && "MIMETypes" in ctx.typeMap && ctx.typeMap["MIMETypes"] == MIMETypesDescriptor
    ensures Transform(ctx, val, Ref("MIMETypes"), key, parent).Ok? <==>
      val.Obj? && Names(val.members) == {MimeKey} && OwnValue(val, MimeKey).Num?
  {
    MIMETypesPropsMap(ctx.dir);
    RefToObject(ctx, "MIMETypes", val, key, parent);
    OneNumberObject(ctx, PropsMapOf(MIMETypesDescriptor.props, ctx.dir), val, key, parent);
  }

  /** The closed object with the single number field MimeKey. */
  lemma OneNumberObject(ctx: Context, pm: PropsMap, val: Json, key: string, parent: string)
    requires TypeMapOk(ctx.typeMap) && pm == [Entry(MimeKey, Target(MimeKey, NumTag(0.0)))]
    ensures TransformObject(ctx, pm, BoolTag(false), val, "MIMETypes", key, parent).Ok? <==>
      val.Obj? && Names(val.members) == {MimeKey} && OwnValue(val, MimeKey).Num?
  {
    UndefinedRejected(ctx, NumTag(0.0), MimeKey, "MIMETypes");
    ClosedObjectAccepts(ctx, pm, val, "MIMETypes", key, parent);
    var x := OwnValue(val, MimeKey);
    PrimitiveTag(ctx, x, NumTag(0.0), MimeKey, "MIMETypes");
    assert DeclaredOk(ctx, pm, val, "MIMETypes", 0) <==> Transform(ctx, x, NumTag(0.0), MimeKey, "MIMETypes").Ok?;
    assert Names(pm) == {MimeKey} by { assert pm[0].name == MimeKey; }
    if val.DateOf? {
      assert Names(OwnMembers(val)) == {};
    }
  }

  lemma MIMETypesExact(ctx: Context, val: Json, key: string, parent: string)
    requires ctx.typeMap == SnapshotsTypeMap()
    ensures Transform(ctx, val, R("MIMETypes"), key, parent).Ok? <==>
      val.Obj? && Names(val.members) == {MimeKey} && OwnValue(val, MimeKey).Num?
  {
    MIMETypesExactFrom(ctx, val, key, parent);
  }

  /** The fingerprints of the names Types declares, in order. */
  const TypesPrints: seq<int> :=
    [10082114, 7072114, 10077101, 9077101, 10069110, 13077099, 12077099, 13069099]

  lemma TypesFingerprints()
    ensures var props := TypesDescriptor.props;
      |props| == |TypesPrints| &&
      forall k :: 0 <= k < |props| ==> props[k].json == props[k].js && Fingerprint(props[k].json) == TypesPrints[k]
  {
  }

  lemma TypesDistinct(dir: Direction)
    ensures DistinctKeys(TypesDescriptor.props, dir)
  {
    TypesFingerprints();
    DistinctByFingerprint(TypesDescriptor.props, dir, TypesPrints);
  }

  /** Entry `i` of the Types props map. */
  lemma TypesPropsMapAt(dir: Direction, i: nat, name: string, t: Typ)
    requires i < |TypesDescriptor.props| && TypesDescriptor.props[i] == Prop(name, name, t)
    ensures var pm := PropsMapOf(TypesDescriptor.props, dir);
      |pm| == |TypesDescriptor.props| && pm[i] == Entry(name, Target(name, t))
  {
    TypesDistinct(dir);
    PropsMapAt(TypesDescriptor.props, dir, i);
  }

  /** Every declared field of an accepted Types document passed its own type. */
  lemma TypesFieldPasses(ctx: Context, val: Json, key: string, parent: string, i: nat, name: string, t: Typ)
    requires TypesBound(ctx.typeMap)
    requires i < |TypesDescriptor.props| && TypesDescriptor.props[i] == Prop(name, name, t)
    ensures Transform(ctx, val, Ref("Types"), key, parent).Ok? ==> Transform(ctx, OwnValue(val, name), t, name, "Types").Ok?
  {
    var pm := PropsMapOf(TypesDescriptor.props, ctx.dir);
    TypesPropsMapAt(ctx.dir, i, name, t);
    RefToObject(ctx, "Types", val, key, parent);
    ObjectAccepts(ctx, pm, BoolTag(false), val, "Types", key, parent);
  }

  /** The object toTypes returns holds, under each declared field name, that
    * field of the document converted against its type. */
  lemma TypesResultField(ctx: Context, val: Json, key: string, parent: string, i: nat, name: string, t: Typ)
    requires TypesBound(ctx.typeMap)
    requires i < |TypesDescriptor.props| && TypesDescriptor.props[i] == Prop(name, name, t)
    ensures var r := Transform(ctx, val, Ref("Types"), key, parent);
      r.Ok? ==>
        && r.value.Obj?
        && Lookup(r.value.members, name).Some?
        && Transform(ctx, OwnValue(val, name), t, name, "Types") == Ok(Lookup(r.value.members, name).value)
  {
    var pm := PropsMapOf(TypesDescriptor.props, ctx.dir);
    TypesLastKey(ctx.dir, i, name, t);
    assert pm[i].name in Names(pm);
    RefToObject(ctx, "Types", val, key, parent);
    ObjectFieldStored(ctx, pm, BoolTag(false), val, "Types", key, parent, i);
  }

  /** Field i of Types is written under its own name, by no later field. */
  lemma TypesLastKey(dir: Direction, i: nat, name: string, t: Typ)
    requires i < |TypesDescriptor.props| && TypesDescriptor.props[i] == Prop(name, name, t)
    ensures var pm := PropsMapOf(TypesDescriptor.props, dir);
      i < |pm| && pm[i] == Entry(name, Target(name, t)) && LastKey(pm, i)
  {
    var props := TypesDescriptor.props;
    var pm := PropsMapOf(props, dir);
    TypesPropsMapAt(dir, i, name, t);
    TypesFingerprints();
    TypesDistinct(dir);
    forall k | i < k < |pm| ensures pm[k].value.key != name {
      TypesPropsMapAt(dir, k, props[k].json, props[k].typ);
    }
  }

  /** "Headers" is an array of Header objects. */
  lemma TypesHeaders(ctx: Context, val: Json, key: string, parent: string)
    requires TypesBound(ctx.typeMap)
    ensures Transform(ctx, val, Ref("Types"), key, parent).Ok? ==>
      var h := OwnValue(val, "Headers");
      h.Arr? && forall k :: 0 <= k < |h.elems| ==> Transform(ctx, h.elems[k], Ref("Header"), "", "").Ok?
  {
    TypesFieldPasses(ctx, val, key, parent, 1, "Headers", ArrayOf(Ref("Header")));
    ArrayElementwise(ctx, Ref("Header"), OwnValue(val, "Headers"), "Headers", "Types");
  }

  /** A snapshot list whose MIME statistics name any type other than
    * "application/x-mach-binary" is rejected: the generated map only knows
    * the one MIME type of the sample it was generated from. */
  lemma TypesMimeTypesExact(ctx: Context, val: Json, key: string, parent: string)
    requires TypesBound(ctx.typeMap)
    ensures Transform(ctx, val, Ref("Types"), key, parent).Ok? ==>
      && OwnValue(val, "MimeTypes").Obj? && Names(OwnValue(val, "MimeTypes").members) == {MimeKey}
      && OwnValue(val, "MimeTypesPct").Obj? && Names(OwnValue(val, "MimeTypesPct").members) == {MimeKey}
  {
    TypesFieldPasses(ctx, val, key, parent, 3, "MimeTypes", Ref("MIMETypes"));
    TypesFieldPasses(ctx, val, key, parent, 6, "MimeTypesPct", Ref("MIMETypes"));
    MIMETypesExactFrom(ctx, OwnValue(val, "MimeTypes"), "MimeTypes", "Types");
    MIMETypesExactFrom(ctx, OwnValue(val, "MimeTypesPct"), "MimeTypesPct", "Types");
  }

  /** What convert.toTypes accepts: exactly the eight declared keys, MIME
    * statistics about "application/x-mach-binary" alone, and an array of
    * Header objects under "Headers". */
  lemma ToTypesAccepts(parsesAsDate: Json -> bool, val: Json)
    ensures ToTypes(parsesAsDate, val).Ok? ==>
      && val.Obj? && Names(val.members) == TypesKeys
      && OwnValue(val, "MimeTypes").Obj? && Names(OwnValue(val, "MimeTypes").members) == {MimeKey}
      && OwnValue(val, "MimeTypesPct").Obj? && Names(OwnValue(val, "MimeTypesPct").members) == {MimeKey}
      && OwnValue(val, "Headers").Arr?
  {
    SnapshotsTypesBound();
    var ctx := Context(SnapshotsTypeMap(), JsonToJS, parsesAsDate);
    TypesExactKeys(ctx, val, "", "");
    TypesMimeTypesExact(ctx, val, "", "");
    TypesHeaders(ctx, val, "", "");
  }

  /** The fingerprints of the names Repository declares, in order. */
  const RepositoryPrints: seq<int> :=
    [12067109, 12082073, 7086111, 10069111, 13069101, 11067111, 7072110, 8067110, 11067105, 14067097, 11067097, 12080122]

  lemma RepositoryFingerprints()
    ensures var props := RepositoryDescriptor.props;
      |props| == |RepositoryPrints| &&
      forall k :: 0 <= k < |props| ==> props[k].json == props[k].js && Fingerprint(props[k].json) == RepositoryPrints[k]
  {
  }

  lemma RepositoryDistinct(dir: Direction)
    ensures DistinctKeys(RepositoryDescriptor.props, dir)
  {
    RepositoryFingerprints();
    DistinctByFingerprint(RepositoryDescriptor.props, dir, RepositoryPrints);
  }

  lemma RepositoryPropsMapHead(dir: Direction)
    ensures var pm := PropsMapOf(RepositoryDescriptor.props, dir);
      |pm| == 12 && pm[0] == Entry("CreationTime", Target("CreationTime", DateTag))
  {
    RepositoryDistinct(dir);
    PropsMapAt(RepositoryDescriptor.props, dir, 0);
  }

  /** The date field of a repository: an accepted Repository object holds
    * `null` or a non-numeric value that parses as a date under CreationTime;
    * a number there is rejected. */
  lemma RepositoryCreationTimeFrom(ctx: Context, val: Json, key: string, parent: string)
    requires TypeMapOk(ctx.typeMap) && "Repository" in ctx.typeMap && ctx.typeMap["Repository"] == RepositoryDescriptor
    ensures Transform(ctx, val, R("Repository"), key, parent).Ok? ==>
      && val.Obj?
      && var c := OwnValue(val, "CreationTime");
         c == Null || (!c.Num? && DateIsValid(ctx, c))
  {
    var pm := PropsMapOf(RepositoryDescriptor.props, ctx.dir);
    RepositoryPropsMapHead(ctx.dir);
    RefToObject(ctx, "Repository", val, key, parent);
    ObjectAccepts(ctx, pm, BoolTag(false), val, "Repository", key, parent);
    var c := OwnValue(val, "CreationTime");
    DateTagOutcomes(ctx, c, "CreationTime", "Repository");
    if Transform(ctx, val, R("Repository"), key, parent).Ok? {
      assert Transform(ctx, OwnValue(val, pm[0].name), pm[0].value.typ, pm[0].name, "Repository").Ok?;
    }
  }

  lemma RepositoryCreationTime(ctx: Context, val: Json, key: string, parent: string)
    requires ctx.typeMap == SnapshotsTypeMap()
    ensures Transform(ctx, val, R("Repository"), key, parent).Ok? ==>
      && val.Obj?
      && var c := OwnValue(val, "CreationTime");
         c == Null || (!c.Num? && DateIsValid(ctx, c))
  {
    RepositoryCreationTimeFrom(ctx, val, key, parent);
  }

  // ---------------------------------------------------------------------
  // Both directions.

  lemma TypesDescriptorSameNames()
    ensures SameNames(TypesDescriptor)
  {
  }

  lemma ExtensionsDescriptorSameNames()
    ensures SameNames(ExtensionsDescriptor)
  {
  }

  lemma HeaderPropsSameNames0()
    ensures var props := HeaderDescriptor.props;
      forall k :: 0 <= k < 7 ==> props[k].json == props[k].js && SameNames(props[k].typ)
  {
  }

  lemma HeaderPropsSameNames1()
    ensures var props := HeaderDescriptor.props;
      forall k :: 7 <= k < 14 ==> props[k].json == props[k].js && SameNames(props[k].typ)
  {
  }

  lemma HeaderPropsSameNames2()
    ensures var props := HeaderDescriptor.props;
      forall k :: 14 <= k < 21 ==> props[k].json == props[k].js && SameNames(props[k].typ)
  {
  }

  lemma HeaderPropsSameNames3()
    ensures var props := HeaderDescriptor.props;
      forall k :: 21 <= k < 28 ==> props[k].json == props[k].js && SameNames(props[k].typ)
  {
  }

  lemma HeaderPropsSameNames4()
    ensures var props := HeaderDescriptor.props;
      forall k :: 28 <= k < 35 ==> props[k].json == props[k].js && SameNames(props[k].typ)
  {
  }

  lemma HeaderDescriptorSameNames()
    ensures SameNames(HeaderDescriptor)
  {
    assert |HeaderDescriptor.props| == 35;
    HeaderPropsSameNames0();
    HeaderPropsSameNames1();
    HeaderPropsSameNames2();
    HeaderPropsSameNames3();
    HeaderPropsSameNames4();
  }

  lemma MajorTypesDescriptorSameNames()
    ensures SameNames(MajorTypesDescriptor)
  {
  }

  lemma MIMETypesDescriptorSameNames()
    ensures SameNames(MIMETypesDescriptor)
  {
  }

  lemma IndexDescriptorSameNames()
    ensures SameNames(IndexDescriptor)
  {
  }

  lemma RepositoryDescriptorSameNames()
    ensures SameNames(RepositoryDescriptor)
  {
  }

  /** No descriptor of the map renames a property. */
  lemma SnapshotsSameNames()
    ensures SameNamesMap(SnapshotsTypeMap())
  {
    var tm: TypeMap := map[];
    HeaderDescriptorSameNames();
    SameNamesMapUpdate(tm, "Header", HeaderDescriptor);
    tm := tm["Header" := HeaderDescriptor];
    IndexDescriptorSameNames();
    SameNamesMapUpdate(tm, "Index", IndexDescriptor);
    tm := tm["Index" := IndexDescriptor];
    MajorTypesDescriptorSameNames();
    SameNamesMapUpdate(tm, "MajorTypes", MajorTypesDescriptor);
    tm := tm["MajorTypes" := MajorTypesDescriptor];
    ExtensionsDescriptorSameNames();
    SameNamesMapUpdate(tm, "Extensions", ExtensionsDescriptor);
    tm := tm["Extensions" := ExtensionsDescriptor];
    MIMETypesDescriptorSameNames();
    SameNamesMapUpdate(tm, "MIMETypes", MIMETypesDescriptor);
    tm := tm["MIMETypes" := MIMETypesDescriptor];
    RepositoryDescriptorSameNames();
    SameNamesMapUpdate(tm, "Repository", RepositoryDescriptor);
    tm := tm["Repository" := RepositoryDescriptor];
    TypesDescriptorSameNames();
    SameNamesMapUpdate(tm, "Types", TypesDescriptor);
    tm := tm["Types" := TypesDescriptor];
    assert tm == SnapshotsTypeMap();
  }

  /** The jsToJSON props map of every descriptor is its jsonToJS props map. */
  lemma SnapshotsPropsMapsAgree(name: string, props: seq<Prop>, additional: Typ)
    requires name in SnapshotsTypeMap() && SnapshotsTypeMap()[name] == O(props, additional)
    ensures PropsMapOf(props, JsonToJS) == PropsMapOf(props, JsToJSON)
  {
    SnapshotsSameNames();
    PropsMapsAgreeFrom(SnapshotsTypeMap(), name, props, additional);
  }

  /** TypesToJson checks and returns exactly what ToTypes does. */
  lemma TypesToJsonIsToTypes(parsesAsDate: Json -> bool, val: Json)
    ensures TypesToJson(parsesAsDate, val) == ToTypes(parsesAsDate, val)
  {
    SnapshotsSameNames();
    UncastIsCast(SnapshotsTypeMap(), parsesAsDate, val, R("Types"));
  }
}
