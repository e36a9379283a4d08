/**
 * The type map of src/api/types/browse.ts, which describes the directory
 * listing (`Browse`), and what `Convert.toBrowse` accepts against it.
 */
module BrowseTypes {
  import opened Wrappers
  import opened Convert
  import opened ConvertFacts
  import opened ConvertDirection

  const BrowseDescriptor: Typ := O([
    Prop("Snapshot", "Snapshot", R("Snapshot")),
    Prop("Directories", "Directories", A(R("Directory"))),
    Prop("Files", "Files", A(R("Directory"))),
    Prop("Symlinks", "Symlinks", A(R("Directory"))),
    Prop("SymlinksResolve", "SymlinksResolve", R("SymlinksResolve")),
    Prop("Others", "Others", A(StrTag("any"))),
    Prop("Path", "Path", StrTag("")),
    Prop("Scanned", "Scanned", A(StrTag(""))),
    Prop("Navigation", "Navigation", A(StrTag(""))),
    Prop("NavigationLinks", "NavigationLinks", R("NavigationLinks"))
  ], BoolTag(false))

  const DirectoryDescriptor: Typ := O([
    Prop("Name", "Name", StrTag("")),
    Prop("Size", "Size", NumTag(0.0)),
    Prop("Mode", "Mode", NumTag(0.0)),
    Prop("ModTime", "ModTime", DateTag),
    Prop("Dev", "Dev", NumTag(0.0)),
    Prop("Ino", "Ino", NumTag(0.0)),
    Prop("Uid", "Uid", NumTag(0.0)),
    Prop("Gid", "Gid", NumTag(0.0)),
    Prop("Nlink", "Nlink", NumTag(0.0))
  ], BoolTag(false))

  const NavigationLinksDescriptor: Typ := O([
    Prop("PlakarLabs", "PlakarLabs", StrTag("")),
    Prop("Users", "Users", StrTag("")),
    Prop("dev", "dev", StrTag("")),
    Prop("github", "github", StrTag("")),
    Prop("niluje", "niluje", StrTag("")),
    Prop("plakar", "plakar", StrTag("")),
    Prop("vendor", "vendor", StrTag(""))
  ], BoolTag(false))

  const SnapshotDescriptor: Typ := O([
    Prop("SkipDirs", "SkipDirs", NullTag),
    Prop("Header", "Header", R("Header")),
    Prop("Index", "Index", R("Filesystem")),
    Prop("Filesystem", "Filesystem", R("Filesystem")),
    Prop("Metadata", "Metadata", R("Metadata"))
  ], BoolTag(false))

  const FilesystemDescriptor: Typ := O([
  ], BoolTag(false))

  const HeaderDescriptor: Typ := O([
    Prop("IndexID", "IndexID", StrTag("")),
    Prop("Version", "Version", StrTag("")),
    Prop("CreationTime", "CreationTime", DateTag),
    Prop("CreationDuration", "CreationDuration", NumTag(0.0)),
    Prop("PublicKey", "PublicKey", StrTag("")),
    Prop("Tags", "Tags", A(StrTag("any"))),
    Prop("Hostname", "Hostname", StrTag("")),
    Prop("Username", "Username", StrTag("")),
    Prop("OperatingSystem", "OperatingSystem", StrTag("")),
    Prop("MachineID", "MachineID", StrTag("")),
    Prop("ProcessID", "ProcessID", NumTag(0.0)),
    Prop("CommandLine", "CommandLine", StrTag("")),
    Prop("ScanSize", "ScanSize", NumTag(0.0)),
    Prop("ScanProcessedSize", "ScanProcessedSize", NumTag(0.0)),
    Prop("ScannedDirectories", "ScannedDirectories", A(StrTag(""))),
    Prop("Index", "Index", R("Index")),
    Prop("VFS", "VFS", R("Index")),
    Prop("Metadata", "Metadata", R("Index")),
    Prop("ChunksCount", "ChunksCount", NumTag(0.0)),
    Prop("ChunksSize", "ChunksSize", NumTag(0.0)),
    Prop("ObjectsCount", "ObjectsCount", NumTag(0.0)),
    Prop("FilesCount", "FilesCount", NumTag(0.0)),
    Prop("DirectoriesCount", "DirectoriesCount", NumTag(0.0)),
    Prop("NonRegularCount", "NonRegularCount", NumTag(0.0)),
    Prop("PathnamesCount", "PathnamesCount", NumTag(0.0)),
    Prop("ObjectsTransferCount", "ObjectsTransferCount", NumTag(0.0)),
    Prop("ObjectsTransferSize", "ObjectsTransferSize", NumTag(0.0)),
    Prop("ChunksTransferCount", "ChunksTransferCount", NumTag(0.0)),
    Prop("ChunksTransferSize", "ChunksTransferSize", NumTag(0.0)),
    Prop("FileKind", "FileKind", R("FileKind")),
    Prop("FileType", "FileType", M(NumTag(3.14))),
    Prop("FileExtension", "FileExtension", M(NumTag(3.14))),
    Prop("FilePercentKind", "FilePercentKind", R("FileKind")),
    Prop("FilePercentType", "FilePercentType", M(NumTag(3.14))),
    Prop("FilePercentExtension", "FilePercentExtension", M(NumTag(3.14)))
  ], BoolTag(false))

  const FileKindDescriptor: Typ := O([
    Prop("application", "application", NumTag(3.14)),
    Prop("image", "image", NumTag(3.14)),
    Prop("text", "text", NumTag(3.14))
  ], BoolTag(false))

  const IndexDescriptor: Typ := O([
    Prop("Type", "Type", StrTag("")),
    Prop("Version", "Version", StrTag("")),
    Prop("Checksum", "Checksum", A(NumTag(0.0))),
    Prop("Size", "Size", NumTag(0.0))
  ], BoolTag(false))

  const MetadataDescriptor: Typ := O([
    Prop("ChecksumsList", "ChecksumsList", A(A(NumTag(0.0)))),
    Prop("StringsList", "StringsList", A(StrTag(""))),
    Prop("ItemsList", "ItemsList", A(A(NumTag(0.0))))
  ], BoolTag(false))

  const SymlinksResolveDescriptor: Typ := O([
    Prop("tmp", "tmp", StrTag("")),
    Prop("toto", "toto", StrTag(""))
  ], BoolTag(false))

  /** typeMap */
  function BrowseTypeMap(): (tm: TypeMap)
    ensures TypeMapOk(tm)
    ensures tm.Keys == {"Browse", "Directory", "NavigationLinks", "Snapshot", "Filesystem", "Header",
                        "FileKind", "Index", "Metadata", "SymlinksResolve"}
    ensures tm["Filesystem"] == FilesystemDescriptor && tm["SymlinksResolve"] == SymlinksResolveDescriptor
    ensures tm["Snapshot"] == SnapshotDescriptor && tm["Browse"] == BrowseDescriptor
  {
    map[
      "Directory" := DirectoryDescriptor,
      "NavigationLinks" := NavigationLinksDescriptor,
      "Header" := HeaderDescriptor,
      "FileKind" := FileKindDescriptor,
      "Index" := IndexDescriptor,
      "Metadata" := MetadataDescriptor,
      "Filesystem" := FilesystemDescriptor,
      "Snapshot" := SnapshotDescriptor,
      "SymlinksResolve" := SymlinksResolveDescriptor,
      "Browse" := BrowseDescriptor
    ]
  }

  /** Convert.toBrowse on the result of JSON.parse. */
  function ToBrowse(parsesAsDate: Json -> bool, val: Json): (r: Outcome)
    ensures r.Ok? ==> (val.Obj? || val.DateOf?) && r.value.Obj?
    ensures Scalar(val) || val.Arr? ==> r == Err(InvalidValue(One(Literal("Browse")), val, "", ""))
  {
    RefToObjectOutcome(Context(BrowseTypeMap(), JsonToJS, parsesAsDate), "Browse", val, "", "");
    Cast(BrowseTypeMap(), parsesAsDate, val, R("Browse"))
  }

  /** Convert.browseToJson before JSON.stringify. */
  function BrowseToJson(parsesAsDate: Json -> bool, val: Json): (r: Outcome)
    ensures r.Ok? ==> (val.Obj? || val.DateOf?) && r.value.Obj?
    ensures Scalar(val) || val.Arr? ==> r == Err(InvalidValue(One(Literal("Browse")), val, "", ""))
  {
    RefToObjectOutcome(Context(BrowseTypeMap(), JsToJSON, parsesAsDate), "Browse", val, "", "");
    Uncast(BrowseTypeMap(), parsesAsDate, val, R("Browse"))
  }

  // ---------------------------------------------------------------------
  // What the map accepts.

  /** Filesystem (also the type of a snapshot's Index) declares nothing and
    * allows nothing else: only an object without own members passes, and
    * the result is an empty object. */
  lemma FilesystemFrom(ctx: Context, val: Json, key: string, parent: string)
    requires TypeMapOk(ctx.typeMap) && "Filesystem" in ctx.typeMap && ctx.typeMap["Filesystem"] == FilesystemDescriptor
    ensures Transform(ctx, val, R("Filesystem"), key, parent).Ok? <==> (val.Obj? || val.DateOf?) && OwnMembers(val) == []
    ensures Transform(ctx, val, R("Filesystem"), key, parent).Ok? ==> Transform(ctx, val, R("Filesystem"), key, parent).value == Obj([])
  {
    var pm := PropsMapOf(FilesystemDescriptor.props, ctx.dir);
    assert pm == [];
    RefToObject(ctx, "Filesystem", val, key, parent);
    ObjectAccepts(ctx, pm, BoolTag(false), val, "Filesystem", key, parent);
    if val.Obj? || val.DateOf? {
      if OwnMembers(val) != [] {
        UndeclaredRejects(ctx, pm, val, "Filesystem", key, parent, 0);
      } else {
        assert DeclaredProps(ctx, pm, BoolTag(false), val, "Filesystem", 0, []) == Ok(Obj([]));
      }
    }
  }

  lemma FilesystemEmpty(ctx: Context, val: Json, key: string, parent: string)
    requires ctx.typeMap == BrowseTypeMap()
    ensures Transform(ctx, val, R("Filesystem"), key, parent).Ok? <==> (val.Obj? || val.DateOf?) && OwnMembers(val) == []
    ensures Transform(ctx, val, R("Filesystem"), key, parent).Ok? ==> Transform(ctx, val, R("Filesystem"), key, parent).value == Obj([])
  {
    FilesystemFrom(ctx, val, key, parent);
  }

  /** The statistics maps of a header, `m(3.14)`: an object passes exactly
    * when every own member holds a number, whatever its name. */
  lemma NumberMapAccepts(ctx: Context, val: Json, key: string, parent: string)
    requires TypeMapOk(ctx.typeMap)
    ensures Transform(ctx, val, M(NumTag(3.14)), key, parent).Ok? <==>
      (val.Obj? || val.DateOf?) && forall k :: 0 <= k < |OwnMembers(val)| ==> OwnMembers(val)[k].value.Num?
  {
    MapAccepts(ctx, NumTag(3.14), val, key, parent);
    forall k | 0 <= k < |OwnMembers(val)|
      ensures Transform(ctx, OwnMembers(val)[k].value, NumTag(3.14), OwnMembers(val)[k].name, "").Ok? <==> OwnMembers(val)[k].value.Num?
    {
      NumberTagsAgree(ctx, OwnMembers(val)[k].value, 3.14, 3.14, OwnMembers(val)[k].name, "");
    }
  }

  lemma SymlinksResolvePropsMap(dir: Direction)
    ensures PropsMapOf(SymlinksResolveDescriptor.props, dir) ==
      [Entry("tmp", Target("tmp", StrTag(""))), Entry("toto", Target("toto", StrTag("")))]
  {
  }

  /** An object descriptor declaring two string fields: both names are
    * declared and neither may be missing. */
  lemma TwoStringsNames(ctx: Context, pm: PropsMap, ref: string, a: string, b: string)
    requires TypeMapOk(ctx.typeMap)
    requires pm == [Entry(a, Target(a, StrTag(""))), Entry(b, Target(b, StrTag("")))]
    ensures Names(pm) == {a, b}
    ensures forall i :: 0 <= i < |pm| ==> Transform(ctx, Undefined, pm[i].value.typ, pm[i].name, ref).Err?
  {
    UndefinedRejected(ctx, StrTag(""), a, ref);
    UndefinedRejected(ctx, StrTag(""), b, ref);
    assert pm[0].name in Names(pm) && pm[1].name in Names(pm);
  }

  /** Its declared fields pass exactly when both hold strings. */
  lemma TwoStringsDeclared(ctx: Context, pm: PropsMap, val: Json, ref: string, a: string, b: string)
    requires TypeMapOk(ctx.typeMap)
    requires pm == [Entry(a, Target(a, StrTag(""))), Entry(b, Target(b, StrTag("")))]
    ensures DeclaredOk(ctx, pm, val, ref, 0) <==> OwnValue(val, a).Str? && OwnValue(val, b).Str?
  {
    PrimitiveTag(ctx, OwnValue(val, a), StrTag(""), a, ref);
    PrimitiveTag(ctx, OwnValue(val, b), StrTag(""), b, ref);
    DeclaredOkTwo(ctx, pm, val, ref);
  }

  /** SymlinksResolve accepts exactly the objects with the two keys "tmp"
    * and "toto", both strings. */
  lemma SymlinksResolveFrom(ctx: Context, val: Json, key: string, parent: string)
    requires TypeMapOk(ctx.typeMap) && "SymlinksResolve" in ctx.typeMap
    requires ctx.typeMap["SymlinksResolve"] == SymlinksResolveDescriptor
    ensures Transform(ctx, val, R("SymlinksResolve"), key, parent).Ok? <==>
      val.Obj? && Names(val.members) == {"tmp", "toto"} && OwnValue(val, "tmp").Str? && OwnValue(val, "toto").Str?
  {
    var pm := PropsMapOf(SymlinksResolveDescriptor.props, ctx.dir);
    SymlinksResolvePropsMap(ctx.dir);
    RefToObject(ctx, "SymlinksResolve", val, key, parent);
    TwoStringsNames(ctx, pm, "SymlinksResolve", "tmp", "toto");
    TwoStringsDeclared(ctx, pm, val, "SymlinksResolve", "tmp", "toto");
    ClosedObjectAccepts(ctx, pm, val, "SymlinksResolve", key, parent);
  }

  lemma SymlinksResolveExact(ctx: Context, val: Json, key: string, parent: string)
    requires ctx.typeMap == BrowseTypeMap()
    ensures Transform(ctx, val, R("SymlinksResolve"), key, parent).Ok? <==>
      val.Obj? && Names(val.members) == {"tmp", "toto"} && OwnValue(val, "tmp").Str? && OwnValue(val, "toto").Str?
  {
    SymlinksResolveFrom(ctx, val, key, parent);
  }

  lemma SnapshotDistinct(dir: Direction)
    ensures DistinctKeys(SnapshotDescriptor.props, dir)
  {
    var props := SnapshotDescriptor.props;
    assert forall k :: 0 <= k < |props| ==> KeyFrom(props[k], dir) == props[k].json;
  }

  lemma SnapshotPropsMapHead(dir: Direction)
    ensures var pm := PropsMapOf(SnapshotDescriptor.props, dir);
      |pm| == 5 && pm[0] == Entry("SkipDirs", Target("SkipDirs", NullTag))
  {
    SnapshotDistinct(dir);
    PropsMapAt(SnapshotDescriptor.props, dir, 0);
  }

  /** "SkipDirs" is declared `null`: a snapshot object passes only with
    * SkipDirs null, and any other SkipDirs (missing included) is reported
    * against the `null` type, whose error message cannot be built as
    * written. */
  lemma SnapshotSkipDirsFrom(ctx: Context, val: Json, key: string, parent: string, shown: string)
    requires TypeMapOk(ctx.typeMap) && "Snapshot" in ctx.typeMap && ctx.typeMap["Snapshot"] == SnapshotDescriptor
    ensures Transform(ctx, val, R("Snapshot"), key, parent).Ok? ==> OwnValue(val, "SkipDirs") == Null
    ensures (val.Obj? || val.DateOf?) && OwnValue(val, "SkipDirs") != Null ==>
      && Transform(ctx, val, R("Snapshot"), key, parent) == Err(InvalidValue(One(NullTag), OwnValue(val, "SkipDirs"), "SkipDirs", "Snapshot"))
      && MessageAsWritten(Transform(ctx, val, R("Snapshot"), key, parent).error, shown) == None
  {
    var pm := PropsMapOf(SnapshotDescriptor.props, ctx.dir);
    SnapshotPropsMapHead(ctx.dir);
    RefToObject(ctx, "Snapshot", val, key, parent);
    ObjectAccepts(ctx, pm, BoolTag(false), val, "Snapshot", key, parent);
    var s := OwnValue(val, "SkipDirs");
    AnyNullFalse(ctx, s, "SkipDirs", "Snapshot");
    if Transform(ctx, val, R("Snapshot"), key, parent).Ok? {
      assert Transform(ctx, OwnValue(val, pm[0].name), pm[0].value.typ, pm[0].name, "Snapshot").Ok?;
    }
    if (val.Obj? || val.DateOf?) && s != Null {
      FirstDeclaredError(ctx, pm, BoolTag(false), val, "Snapshot", key, parent);
      NullMismatchMessage(ctx, s, "SkipDirs", "Snapshot", shown);
    }
  }

  lemma SnapshotSkipDirs(ctx: Context, val: Json, key: string, parent: string, shown: string)
    requires ctx.typeMap == BrowseTypeMap()
    ensures Transform(ctx, val, R("Snapshot"), key, parent).Ok? ==> OwnValue(val, "SkipDirs") == Null
    ensures (val.Obj? || val.DateOf?) && OwnValue(val, "SkipDirs") != Null ==>
      && Transform(ctx, val, R("Snapshot"), key, parent) == Err(InvalidValue(One(NullTag), OwnValue(val, "SkipDirs"), "SkipDirs", "Snapshot"))
      && MessageAsWritten(Transform(ctx, val, R("Snapshot"), key, parent).error, shown) == None
  {
    SnapshotSkipDirsFrom(ctx, val, key, parent, shown);
  }

  // ---------------------------------------------------------------------
  // Both directions.

  lemma BrowseDescriptorSameNames()
    ensures SameNames(BrowseDescriptor)
  {
  }

  lemma DirectoryDescriptorSameNames()
    ensures SameNames(DirectoryDescriptor)
  {
  }

  lemma NavigationLinksDescriptorSameNames()
    ensures SameNames(NavigationLinksDescriptor)
  {
  }

  lemma SnapshotDescriptorSameNames()
    ensures SameNames(SnapshotDescriptor)
  {
  }

  lemma FilesystemDescriptorSameNames()
    ensures SameNames(FilesystemDescriptor)
  {
  }

  lemma HeaderPropsSameNames0()
    ensures var props := HeaderDescriptor.props;
      forall k :: 0 <= k < 7 ==> props[k].json == props[k].js && SameNames(props[k].typ)
  {
  }

  lemma HeaderPropsSameNames1()
    ensures var props := HeaderDescriptor.props;
      forall k :: 7 <= k < 14 ==> props[k].json == props[k].js && SameNames(props[k].typ)
  {
  }

  lemma HeaderPropsSameNames2()
    ensures var props := HeaderDescriptor.props;
      forall k :: 14 <= k < 21 ==> props[k].json == props[k].js && SameNames(props[k].typ)
  {
  }

  lemma HeaderPropsSameNames3()
    ensures var props := HeaderDescriptor.props;
      forall k :: 21 <= k < 28 ==> props[k].json == props[k].js && SameNames(props[k].typ)
  {
  }

  lemma HeaderPropsSameNames4()
    ensures var props := HeaderDescriptor.props;
      forall k :: 28 <= k < 35 ==> props[k].json == props[k].js && SameNames(props[k].typ)
  {
  }

  lemma HeaderDescriptorSameNames()
    ensures SameNames(HeaderDescriptor)
  {
    assert |HeaderDescriptor.props| == 35;
    HeaderPropsSameNames0();
    HeaderPropsSameNames1();
    HeaderPropsSameNames2();
    HeaderPropsSameNames3();
    HeaderPropsSameNames4();
  }

  lemma FileKindDescriptorSameNames()
    ensures SameNames(FileKindDescriptor)
  {
  }

  lemma IndexDescriptorSameNames()
    ensures SameNames(IndexDescriptor)
  {
  }

  lemma MetadataDescriptorSameNames()
    ensures SameNames(MetadataDescriptor)
  {
  }

  lemma SymlinksResolveDescriptorSameNames()
    ensures SameNames(SymlinksResolveDescriptor)
  {
  }

  /** No descriptor of the map renames a property. */
  lemma BrowseSameNames()
    ensures SameNamesMap(BrowseTypeMap())
  {
    var tm: TypeMap := map[];
    DirectoryDescriptorSameNames();
    SameNamesMapUpdate(tm, "Directory", DirectoryDescriptor);
    tm := tm["Directory" := DirectoryDescriptor];
    NavigationLinksDescriptorSameNames();
    SameNamesMapUpdate(tm, "NavigationLinks", NavigationLinksDescriptor);
    tm := tm["NavigationLinks" := NavigationLinksDescriptor];
    HeaderDescriptorSameNames();
    SameNamesMapUpdate(tm, "Header", HeaderDescriptor);
    tm := tm["Header" := HeaderDescriptor];
    FileKindDescriptorSameNames();
    SameNamesMapUpdate(tm, "FileKind", FileKindDescriptor);
    tm := tm["FileKind" := FileKindDescriptor];
    IndexDescriptorSameNames();
    SameNamesMapUpdate(tm, "Index", IndexDescriptor);
    tm := tm["Index" := IndexDescriptor];
    MetadataDescriptorSameNames();
    SameNamesMapUpdate(tm, "Metadata", MetadataDescriptor);
    tm := tm["Metadata" := MetadataDescriptor];
    FilesystemDescriptorSameNames();
    SameNamesMapUpdate(tm, "Filesystem", FilesystemDescriptor);
    tm := tm["Filesystem" := FilesystemDescriptor];
    SnapshotDescriptorSameNames();
    SameNamesMapUpdate(tm, "Snapshot", SnapshotDescriptor);
    tm := tm["Snapshot" := SnapshotDescriptor];
    SymlinksResolveDescriptorSameNames();
    SameNamesMapUpdate(tm, "SymlinksResolve", SymlinksResolveDescriptor);
    tm := tm["SymlinksResolve" := SymlinksResolveDescriptor];
    BrowseDescriptorSameNames();
    SameNamesMapUpdate(tm, "Browse", BrowseDescriptor);
    tm := tm["Browse" := BrowseDescriptor];
    assert tm == BrowseTypeMap();
  }

  /** The jsToJSON props map of every descriptor is its jsonToJS props map. */
  lemma BrowsePropsMapsAgree(name: string, props: seq<Prop>, additional: Typ)
    requires name in BrowseTypeMap() && BrowseTypeMap()[name] == O(props, additional)
    ensures PropsMapOf(props, JsonToJS) == PropsMapOf(props, JsToJSON)
  {
    BrowseSameNames();
    PropsMapsAgreeFrom(BrowseTypeMap(), name, props, additional);
  }

  /** BrowseToJson checks and returns exactly what ToBrowse does. */
  lemma BrowseToJsonIsToBrowse(parsesAsDate: Json -> bool, val: Json)
    ensures BrowseToJson(parsesAsDate, val) == ToBrowse(parsesAsDate, val)
  {
    BrowseSameNames();
    UncastIsCast(BrowseTypeMap(), parsesAsDate, val, R("Browse"));
  }
}
