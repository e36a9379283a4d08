# plakar-ui core, modelled in Dafny

This project models the parts of the plakar web UI that decide what is
shown and what is accepted:

- **The display helpers** (`src/utils/display.ts`):
  - file modes are rendered in the style of Go's `FileMode.String`;
  - paths under the user's home are shortened to `~/`;
  - dates are shown as `YYYY/MM/DD HH:MM:SS`;
  - snapshot ids are cut to eight characters.
- **Keyboard navigation of the snapshot list page** (`src/pages/index.tsx`):
  - ArrowUp and ArrowDown move the DOM focus between rows, with wrap-around;
  - ArrowRight and Enter open the focused snapshot.
- **The breadcrumb bar** (`src/components/Breadcrumb.tsx`):
  - one crumb per non-empty path segment;
  - each crumb but the last links to its prefix of the path;
  - `/snapshots` links to `/`.
- **The run-time type checker generated for the API types**
  (`src/api/types/browse.ts` and `src/api/types/snapshots.ts`):
  - `transform` walks a parsed JSON value against a type descriptor;
  - the result is either the converted value or the first error, whose message `invalidValue` builds;
  - the two type maps describe the browse listing (`Browse`) and the snapshot list (`Types`). `src/api/snapshots.ts` casts the fetched snapshot list to `Types` without calling the checker, so `toTypes` and `toBrowse` are modelled as the checker's entry points, not as part of fetching.

The two API files carry identical copies of the checker code, so the
checker's rows below cite `browse.ts`. In `snapshots.ts` the same code sits
25 lines earlier: `transform` is at lines 144-223 there, against 169-248
in `browse.ts`.

## Modules

| file | module | what it holds |
|---|---|---|
| `wrappers.dfy` | `Wrappers` | `Option` and `Result` |
| `display.dfy` | `Display` | The display helpers. `ModeForDisplay` writes into an `array` buffer, as the source writes `buf[w]`. `PathForDisplay` loops over the two home prefixes. Each method is proved equal to a specification function. |
| `snapshot_list.dfy` | `SnapshotListPage` | Class `ListPage`: the loaded list, the rendered rows and `document.activeElement` as fields, and the two keydown handlers as methods. |
| `breadcrumb.dfy` | `Breadcrumb` | `split("/")`, `filter`, `join`, `capitalize` and the rendered crumbs. |
| `convert.dfy` | `Convert` | JSON values (`Json`), type descriptors (`Typ`), ordered dictionaries, props maps, and `transform` with its helpers as total functions. The error value and its message are here too. |
| `convert_facts.dfy` | `ConvertFacts` | What each kind of descriptor accepts and rejects, and facts about props maps and error messages. |
| `convert_loops.dfy` | `ConvertLoops` | The parts of the checker that loop: the reference loop, the union's try/catch loop, the two `forEach` loops of `transformObject`, and the props-map cache (class `ObjectDescriptor`). Each is proved equal to its function in `Convert`. |
| `convert_direction.dfy` | `ConvertDirection` | `uncast` agrees with `cast` when no descriptor renames a property. |
| `snapshots_types.dfy` | `SnapshotsTypes` | The `snapshots.ts` type map, and what `toTypes` accepts. |
| `browse_types.dfy` | `BrowseTypes` | The `browse.ts` type map, and what `toBrowse` accepts. |

## Model

| member | source | states |
|---|---|---|
| Display.ModeString | src/utils/display.ts:2-33 | Every character is '-', a type letter or a permission letter |
| Display.ModeForDisplay | src/utils/display.ts:2-33 | Returns ModeString(mode): the letters of the set type bits 31..19 in "dalTLDpSugct?" order ("-" when none), then nine permission characters |
| Display.WriteTypeLetters | src/utils/display.ts:7-13 | The first loop writes exactly the letters of the set type bits, in order, at most 13 of them |
| Display.WritePerms | src/utils/display.ts:21-30 | The second loop appends nine characters after what is already written and leaves that untouched |
| Display.TypePrefixCount | src/utils/display.ts:8-13 | One letter is written per set type bit, so the count of letters equals the count of set bits |
| Display.PermsAt | src/utils/display.ts:23-29 | Permission character i is "rwxrwxrwx"[i] when bit 8 - i is set, and '-' otherwise |
| Display.ModeLength | src/utils/display.ts:2-33 | The output has max(1, k) + 9 characters, where k is the number of set type bits; so between 10 and 22 |
| Display.TypePrefixLength | src/utils/display.ts:8-13 | The first n type bits give at most n letters |
| Display.ModePermissions | src/utils/display.ts:21-30 | The last nine characters are the permission characters, bit by bit |
| Display.ModeNoTypeBits | src/utils/display.ts:15-19 | The output starts with '-' exactly when no type bit is set |
| Display.TypePrefixLetters | src/utils/display.ts:8-13 | Every written type letter comes from the letters already scanned |
| Display.TypeLetterPresent | src/utils/display.ts:8-13 | The letter of type bit 31 - i appears exactly when that bit is set (both directions) |
| Display.TypePrefixInOrder | src/utils/display.ts:8-13 | The type letters are a subsequence of "dalTLDpSugct?" |
| Display.TypeLettersDistinct | src/utils/display.ts:3 | No type letter is repeated, so each letter identifies one bit |
| Display.ModeIgnoresMiddleBits | src/utils/display.ts:2-33 | Two modes that agree on bits 31..19 and 8..0 display the same |
| Display.HomePrefixes | src/utils/display.ts:37-46 | Exactly two prefixes are tried |
| Display.PathForDisplay | src/utils/display.ts:36-54 | The loop returns ShortenedPath(path, username) |
| Display.ShortenedPath | src/utils/display.ts:36-54 | The path is either returned unchanged or shortened to a strictly shorter string starting with "~/" |
| Display.ShortenedHome | src/utils/display.ts:39-41 | A path under /home/user/ becomes "~/" plus the rest; expanding it gives the path back; it is shorter |
| Display.ShortenedUsers | src/utils/display.ts:43-50 | Failing that, a path under /Users/user/ is shortened the same way |
| Display.ShortenedOther | src/utils/display.ts:53 | Any other path is returned unchanged |
| Display.NatToStringDigits | src/utils/display.ts:58-62 | String() of a non-negative integer is all digits, and reads back as the integer |
| Display.TwoDigitsRoundTrip | src/utils/display.ts:58-62 | A value in 0..99, padded to two digits, is exactly two digits that read back as the value |
| Display.DateForDisplay | src/utils/display.ts:56-64 | The result starts with the year and "/", and has at least 15 more characters |
| Display.DateFields | src/utils/display.ts:56-64 | The year comes first, then "/" month+1, "/" day, " " hours, ":" minutes, ":" seconds, each two digits that read back as the component |
| Display.UUIDForDisplay | src/utils/display.ts:66-68 | The result is a prefix of the id, eight characters long or the whole id when it is shorter |
| Display.UUIDForDisplayIdempotent | src/utils/display.ts:66-68 | Shortening twice is shortening once |
| SnapshotListPage.FindIndex | src/pages/index.tsx:23-25 | Returns -1 exactly when no row is the active element; otherwise the first index holding it |
| SnapshotListPage.ListPage.SelectedIndex | src/pages/index.tsx:22-27 | -1 when no row has the focus; otherwise the first row that has it |
| SnapshotListPage.ListPage.Focus | src/pages/index.tsx:40 | Optional-chained focus: focuses row i when it exists; otherwise changes nothing |
| SnapshotListPage.ListPage.OnArrowKey | src/pages/index.tsx:30-58 | Not loaded: nothing changes. Loaded: the selection becomes ArrowTarget(key, old selection), or stays when that row does not exist |
| SnapshotListPage.ListPage.OnEnterKey | src/pages/index.tsx:67-85 | Only ArrowRight and Enter on a loaded list navigate. The target is /snapshots/ + the selected header's IndexID; there is none when no row is selected |
| SnapshotListPage.FocusedRowIsSelected | src/pages/index.tsx:22-27 | After row t is focused, getSelectedIndex returns t |
| SnapshotListPage.ArrowTarget | src/pages/index.tsx:38-56 | ArrowDown goes to (i + 1) mod n, from -1 to row 0; ArrowUp goes to (i - 1 + n) mod n, and to row 0 when nothing is selected; other keys keep the index |
| SnapshotListPage.ArrowTargetInRange | src/pages/index.tsx:38-56 | With at least one row, both arrows always land on a row |
| SnapshotListPage.DownThenUp | src/pages/index.tsx:38-56 | ArrowDown then ArrowUp returns to the starting row, across the wrap too |
| SnapshotListPage.UpThenDown | src/pages/index.tsx:38-56 | ArrowUp then ArrowDown returns to the starting row |
| SnapshotListPage.DownThenUpRestoresFocus | src/pages/index.tsx:30-58 | On the page object, the two key presses give the focus back to the row that had it |
| Breadcrumb.Split | src/components/Breadcrumb.tsx:15 | split("/") yields at least one piece, and no piece contains '/' |
| Breadcrumb.NonEmpty | src/components/Breadcrumb.tsx:15 | filter(path => path) keeps only non-empty pieces, and keeps every non-empty piece of the input as often as it occurs: the kept multiset is the input's with the empty string removed |
| Breadcrumb.NonEmptyAppend | src/components/Breadcrumb.tsx:15 | Filtering a concatenation filters each half, so the kept pieces stay in their input order |
| Breadcrumb.NonEmptyOne | src/components/Breadcrumb.tsx:15 | A single piece is kept exactly when it is non-empty |
| Breadcrumb.Parts | src/components/Breadcrumb.tsx:15 | The parts are non-empty and contain no '/' |
| Breadcrumb.PartsOfPieces | src/components/Breadcrumb.tsx:15 | For any pathname, written as slash-free pieces joined by "/", the parts are exactly the non-empty pieces, in order |
| Breadcrumb.PartsOfWord | src/components/Breadcrumb.tsx:15 | A slash-free pathname has itself as its only part, or no part when it is empty |
| Breadcrumb.PartsAfterWord | src/components/Breadcrumb.tsx:15 | The parts of w + "/" + rest are w (when non-empty) followed by the parts of rest |
| Breadcrumb.JoinSplit | src/components/Breadcrumb.tsx:15 | Joining the pieces of split("/") gives the string back |
| Breadcrumb.SplitJoin | src/components/Breadcrumb.tsx:15 | Splitting a join of slash-free pieces gives the pieces back |
| Breadcrumb.PartsOfPath | src/components/Breadcrumb.tsx:15 | The parts of "/" + segments joined by "/" are exactly those segments |
| Breadcrumb.Capitalize | src/components/Breadcrumb.tsx:34-39 | A UUID is kept as it is. Anything else keeps its length and the rest of its characters, with the first one upper-cased |
| Breadcrumb.Href | src/components/Breadcrumb.tsx:46 | The link of segment idx starts with "/", is longer than the segment, and ends with that segment |
| Breadcrumb.JoinEndsWithLast | src/components/Breadcrumb.tsx:46 | join("/") of at least one piece ends with the last piece |
| Breadcrumb.HrefOk | src/components/Breadcrumb.tsx:49 | The rewritten link is never /snapshots, and any other link is kept as it is |
| Breadcrumb.Crumbs | src/components/Breadcrumb.tsx:17-66 | One crumb per part, or the single root crumb when there is none. The last crumb has no link exactly when there are parts; every other crumb has one, and no link is /snapshots |
| Breadcrumb.HrefExtends | src/components/Breadcrumb.tsx:46 | Each link is the previous link plus "/" and the next segment, so it is a proper extension of it |
| Breadcrumb.CrumbsOfRoot | src/components/Breadcrumb.tsx:17-32 | With no segments there is a single crumb, "> Snapshots", linking to / |
| Breadcrumb.CrumbsOfSegments | src/components/Breadcrumb.tsx:44-66 | One crumb per segment. Its text is the capitalized segment, preceded by "> " except on the last crumb. Only the last has no link. The others link to their path prefix, with /snapshots replaced by / |
| Breadcrumb.HrefHasTwoSlashes | src/components/Breadcrumb.tsx:46-49 | Only the first crumb can link to /snapshots, so only its link can be rewritten |
| Breadcrumb.HrefIsPathPrefix | src/components/Breadcrumb.tsx:46 | For a pathname "/" + segments joined by "/" (no empty segment), every link is the pathname cut right after its segment |
| Convert.Find | src/api/types/browse.ts:216 | The first position holding the name; None exactly when the name is absent |
| Convert.Lookup | src/api/types/browse.ts:216 | A value is found exactly when the name is present |
| Convert.Put | src/api/types/browse.ts:217 | After the assignment the name holds the value, and every other name is unchanged. The set of names grows by the name, and the length grows only for a new name |
| Convert.ResolveName | src/api/types/browse.ts:233-237 | A resolved chain ends in a non-reference: the map's entry for the last name, or undefined when the name is missing |
| Convert.Resolve | src/api/types/browse.ts:233-237 | Non-references pass through. A reference resolves to a descriptor that is neither a reference, a union nor null; it is the map's entry for the last name, or undefined when that name is missing |
| Convert.Transform | src/api/types/browse.ts:169-248 | A rejected null, string, number, boolean or undefined value is reported as itself, under the key and parent it was checked with |
| Convert.TransformPrimitive | src/api/types/browse.ts:170-173 | A tag accepts exactly the values whose typeof is its own, returns them unchanged, and otherwise reports the tag against the value |
| Convert.TransformUnion | src/api/types/browse.ts:175-185 | When no member accepts, the error lists all the union's members against the value |
| Convert.TransformEnum | src/api/types/browse.ts:187-190 | Accepts exactly the strings among the cases, unchanged; the error lists every case as a literal, in order |
| Convert.TransformArray | src/api/types/browse.ts:192-196 | A non-array is rejected as itself; an accepted array gives an array of the same length |
| Convert.TransformElements | src/api/types/browse.ts:195 | When every element from i on passes, there is one result per element |
| Convert.TransformDate | src/api/types/browse.ts:198-207 | Accepts exactly null and values that make a valid Date; null stays null and any other accepted value becomes a Date; a rejection reports the value under its key and parent |
| Convert.TransformObject | src/api/types/browse.ts:209-225 | Only an object (or a Date, walked as an object) can pass; null, primitives and arrays are rejected as themselves |
| Convert.Cast | src/api/types/browse.ts:250-252 | A rejected top-level scalar is reported as itself, with no key and no parent |
| Convert.Uncast | src/api/types/browse.ts:254-256 | A rejected top-level scalar is reported as itself, with no key and no parent |
| ConvertFacts.ElementsStep | src/api/types/browse.ts:195 | map(transform) at position i: the element's error if it fails, otherwise the element's result followed by the rest |
| ConvertFacts.RefToObjectOutcome | src/api/types/browse.ts:209-212 | A reference to an object descriptor succeeds only on an object, giving an object; a scalar or array is rejected with the reference's name (or "object" for an unnamed one) as a literal |
| ConvertFacts.PrimitiveTag | src/api/types/browse.ts:170-173 | A string, number, true or undefined tag accepts exactly the values of its own typeof, returns them unchanged, and otherwise reports the tag itself |
| ConvertFacts.NumberTagsAgree | src/api/types/browse.ts:170-171 | Every number tag accepts exactly the numbers, whatever its value |
| ConvertFacts.AnyNullFalse | src/api/types/browse.ts:227-232 | "any" returns every value unchanged; null accepts only null; false rejects every value |
| ConvertFacts.DateTagOutcomes | src/api/types/browse.ts:198-207 | Date: null stays null. A number fails as a primitive. Another value becomes a Date when it parses, and is rejected with "Date" when it does not. undefined is rejected |
| ConvertFacts.EnumExact | src/api/types/browse.ts:187-190 | An enum accepts exactly its cases, unchanged, and its error lists the cases as literals |
| ConvertFacts.UnionFrom | src/api/types/browse.ts:175-185 | The loop from member i on: success exactly when some member accepts; the result is the first success; on failure every member is listed |
| ConvertFacts.UnionFirstSuccess | src/api/types/browse.ts:175-185 | A union returns the result of its first accepting member; when none accepts, the error lists all members |
| ConvertFacts.OptionalAcceptsUndefined | src/api/types/browse.ts:175-185 | [undefined, t] accepts a missing value |
| ConvertFacts.ElementsFrom | src/api/types/browse.ts:195 | map(transform) succeeds exactly when every element passes. It then gives the converted elements in order; otherwise it gives some element's error |
| ConvertFacts.ArrayElementwise | src/api/types/browse.ts:192-196 | A non-array is rejected as "array". An array passes exactly when every element does, and the result keeps the length and order; a failure is an element's error |
| ConvertFacts.DeclaredFrom | src/api/types/browse.ts:214-218 | The first forEach succeeds exactly when every declared name passes and the second loop succeeds |
| ConvertFacts.ExtrasFrom | src/api/types/browse.ts:219-223 | The second forEach succeeds exactly when every undeclared own member passes `additional` |
| ConvertFacts.ObjectAccepts | src/api/types/browse.ts:209-225 | null, primitives and arrays are rejected, naming the reference or "object". Otherwise the object passes exactly when all declared names and all undeclared members pass, and the result is an object, whose contents ObjectResult states |
| ConvertFacts.ExtrasResult | src/api/types/browse.ts:219-223 | The second forEach adds exactly the undeclared own member names, each holding its member converted against `additional` (the last write of a name wins), and leaves every other name as it was |
| ConvertFacts.DeclaredResult | src/api/types/browse.ts:214-218 | The first forEach writes each declared name's converted value (undefined when missing) under prop.key, the props map's target name; a later write of the same key wins; then the second forEach adds the undeclared members |
| ConvertFacts.WriteStep | src/api/types/browse.ts:217 | An assignment `result[k] = v` followed by writes to other names: k still holds v, and the other names are as before the assignment |
| ConvertFacts.ObjectResult | src/api/types/browse.ts:209-225 | An accepted object's names are exactly the declared keys (the renamed JavaScript names when casting) and the undeclared own names. Each declared key not overwritten holds its declared name's converted value. Each undeclared member holds its value converted against `additional` |
| ConvertFacts.ObjectFieldStored | src/api/types/browse.ts:214-218 | A declared key written last, and not overwritten by an undeclared member, holds the converted value of its declared name |
| ConvertFacts.FirstDeclaredError | src/api/types/browse.ts:214-218 | When the first declared name fails, its error is the object's error |
| ConvertFacts.MissingRequiredRejects | src/api/types/browse.ts:216 | A missing declared name is checked as undefined; a type that rejects undefined rejects the object |
| ConvertFacts.UndeclaredRejects | src/api/types/browse.ts:219-223 | With `additional` false, one undeclared member rejects the object |
| ConvertFacts.ClosedObjectKeys | src/api/types/browse.ts:209-225 | A closed object whose fields are all required accepts only values with exactly the declared names |
| ConvertFacts.ClosedObjectAccepts | src/api/types/browse.ts:209-225 | Such an object accepts exactly the values with the declared names whose declared fields pass |
| ConvertFacts.MapAccepts | src/api/types/browse.ts:274-276 | m(t) accepts an object exactly when every own member passes t |
| ConvertFacts.ResolveSeenIrrelevant | src/api/types/browse.ts:233-237 | Where a chain resolves, the result does not depend on the names already visited |
| ConvertFacts.RefChain | src/api/types/browse.ts:233-237 | A reference to a name bound to a reference behaves as that reference |
| ConvertFacts.RefToObject | src/api/types/browse.ts:233-242 | A reference to an object descriptor checks the object under the reference's name, with that descriptor's props map |
| ConvertFacts.MissingRefIsUndefined | src/api/types/browse.ts:236 | A reference to a missing name accepts only undefined |
| ConvertFacts.UndefinedRejected | src/api/types/browse.ts:169-247 | String, number and Date tags, arrays, objects and references to objects all reject undefined |
| ConvertFacts.PropsMapNames | src/api/types/browse.ts:154 | The props map has exactly the props' names |
| ConvertFacts.PropsMapDistinct | src/api/types/browse.ts:151-158 | The props map has no duplicate name |
| ConvertFacts.PropsMapTargets | src/api/types/browse.ts:154 | Every entry of the props map comes from one of the props |
| ConvertFacts.PropsMapInOrder | src/api/types/browse.ts:154 | With distinct names, entry i is built from prop i |
| ConvertFacts.SameNamesSameMaps | src/api/types/browse.ts:151-167 | When JSON and JS names agree, jsonToJSProps and jsToJSONProps build the same map |
| Convert.Message | src/api/types/browse.ts:130-135 | The message ends with ". Expected " + the expected descriptors' name + " but got " + the JSON text of the value |
| ConvertFacts.MessageEnds | src/api/types/browse.ts:130-135 | The message starts with "Invalid value" and ends with the JSON text of the value |
| ConvertFacts.MessageClauses | src/api/types/browse.ts:132-134 | The key clause appears only for a non-empty key, and the parent clause only for a non-empty parent, in that order |
| ConvertFacts.MessageShape | src/api/types/browse.ts:130-135 | The message is "Invalid value", the key clause, the parent clause and the expected/got tail, concatenated in that order |
| Convert.PrettyTypeName | src/api/types/browse.ts:137-149 | Corrected for null: apart from literals, a descriptor is named "null" exactly when it is null |
| ConvertFacts.PrettyNames | src/api/types/browse.ts:137-149 | [undefined, t] is "an optional ..."; a literal names itself; tags are named by their typeof |
| ConvertFacts.EnumName | src/api/types/browse.ts:142 | Any enum is named as the list of its cases' string tags, so "one of [string, ..., string]" with one entry per case |
| ConvertFacts.ListNameOne | src/api/types/browse.ts:142 | The empty list is "one of []"; a one-element list is "one of [" + its member's name + "]" |
| ConvertFacts.ListNameSnoc | src/api/types/browse.ts:142 | For any list that is not an optional, appending a member inserts ", " + its name before the closing bracket: the list is named member by member, in order |
| ConvertFacts.JoinCommaSnoc | src/api/types/browse.ts:142 | join(", ") of a list with one more string is the previous join, ", " and that string |
| ConvertFacts.NullMismatchMessage | src/api/types/browse.ts:228-230 | A non-null value against null is rejected. The message as written cannot be built; the corrected one says "Expected null" |
| Convert.PrettyTypeNameAsWritten | src/api/types/browse.ts:137-149 | As written, naming fails (throws) exactly on the null descriptor; every other descriptor gets the corrected name |
| Convert.MessageAsWritten | src/api/types/browse.ts:130-149 | As written, the message cannot be built exactly when null is the expected descriptor or one of the expected list; otherwise it equals the corrected message |
| ConvertLoops.ResolveRefs | src/api/types/browse.ts:233-237 | The while loop returns what Resolve specifies |
| ConvertLoops.TransformUnionLoop | src/api/types/browse.ts:175-185 | The try/catch loop returns what TransformUnion specifies |
| ConvertLoops.TransformObjectLoops | src/api/types/browse.ts:209-225 | The two forEach loops return what TransformObject specifies |
| ConvertLoops.DeclaredLoop | src/api/types/browse.ts:213-218 | The first forEach either stops at the first failure, which is the object's outcome, or leaves a result from which the second loop finishes the object |
| ConvertLoops.ExtrasLoop | src/api/types/browse.ts:219-224 | The second forEach returns what ExtraMembers specifies |
| ConvertLoops.BuildPropsMap | src/api/types/browse.ts:153-154 | The forEach builds PropsMapOf(props, dir) |
| ConvertLoops.ObjectDescriptor.JsonToJSProps | src/api/types/browse.ts:151-158 | Returns the jsonToJS map of the props and caches it; an existing cache is kept |
| ConvertLoops.ObjectDescriptor.JsToJSONProps | src/api/types/browse.ts:160-167 | Returns the jsToJSON map of the props and caches it; an existing cache is kept |
| ConvertLoops.PropsAskedTwice | src/api/types/browse.ts:151-158 | Asking twice gives the same map, cached on the descriptor, and the other cache is untouched |
| ConvertDirection.SameNamesProps | src/api/types/browse.ts:151-167 | Props that never rename give one props map in both directions |
| ConvertDirection.PropsMapsAgreeFrom | src/api/types/browse.ts:151-167 | In a type map that never renames, every object's two props maps coincide |
| ConvertDirection.TransformSame | src/api/types/browse.ts:169-248 | For a descriptor that never renames, transform gives the same outcome with either props map |
| ConvertDirection.UncastIsCast | src/api/types/browse.ts:250-256 | uncast accepts, rejects and returns exactly as cast does when no descriptor renames a property |
| SnapshotsTypes.SnapshotsTypeMap | src/api/types/snapshots.ts:257-334 | The map is well formed, binds exactly its seven names, and binds Types, MIMETypes, Repository, MajorTypes and Extensions to their descriptors |
| SnapshotsTypes.TypesKeysOf | src/api/types/snapshots.ts:258-267 | Types declares exactly its eight names |
| SnapshotsTypes.TypesPropKinds | src/api/types/snapshots.ts:258-267 | Every field of Types is an array or a reference to an object descriptor |
| SnapshotsTypes.TypesPropRequired | src/api/types/snapshots.ts:258-267 | Every field of Types rejects a missing value |
| SnapshotsTypes.TypesFieldsRequired | src/api/types/snapshots.ts:258-267 | Every entry of the Types props map rejects a missing value |
| SnapshotsTypes.TypesExactKeys | src/api/types/snapshots.ts:258-267 | An accepted Types document has exactly the eight declared keys |
| SnapshotsTypes.MIMETypesPropsMap | src/api/types/snapshots.ts:311-313 | The MIMETypes props map has the single entry "application/x-mach-binary" |
| SnapshotsTypes.MIMETypesExact | src/api/types/snapshots.ts:311-313 | MIMETypes accepts exactly the objects whose only key is "application/x-mach-binary", holding a number |
| SnapshotsTypes.TypesFieldPasses | src/api/types/snapshots.ts:258-267 | Every declared field of an accepted Types document passed its own type |
| SnapshotsTypes.TypesResultField | src/api/types/snapshots.ts:188-193 | The object toTypes returns holds, under each declared field name, that field of the document converted against its type |
| SnapshotsTypes.TypesHeaders | src/api/types/snapshots.ts:260 | An accepted Types document holds an array of accepted Header objects under Headers |
| SnapshotsTypes.TypesMimeTypesExact | src/api/types/snapshots.ts:258-267 | MimeTypes and MimeTypesPct of an accepted document name only "application/x-mach-binary" |
| SnapshotsTypes.ToTypes | src/api/types/snapshots.ts:96-98 | toTypes gives an object only for an object; a scalar or array is rejected as "Types" with no key or parent |
| SnapshotsTypes.ToTypesAccepts | src/api/types/snapshots.ts:96-98 | What toTypes accepts has the eight keys, one-key MIME statistics, and an array under Headers |
| SnapshotsTypes.RepositoryCreationTime | src/api/types/snapshots.ts:320-333 | An accepted Repository holds null or a non-numeric value that parses as a date under CreationTime |
| SnapshotsTypes.SnapshotsSameNames | src/api/types/snapshots.ts:257-334 | No descriptor of the map renames a property |
| SnapshotsTypes.SnapshotsPropsMapsAgree | src/api/types/snapshots.ts:126-142 | Each descriptor's jsToJSON props map is its jsonToJS props map |
| SnapshotsTypes.TypesToJsonIsToTypes | src/api/types/snapshots.ts:95-103 | typesToJson checks and returns exactly what toTypes does |
| BrowseTypes.BrowseTypeMap | src/api/types/browse.ts:282-381 | The map is well formed, binds exactly its ten names, and binds Filesystem, SymlinksResolve and Snapshot to their descriptors |
| BrowseTypes.FilesystemEmpty | src/api/types/browse.ts:322-323 | Filesystem accepts exactly the objects without own members and returns an empty object |
| BrowseTypes.NumberMapAccepts | src/api/types/browse.ts:355-359 | The m(3.14) statistics maps accept exactly the objects whose every member is a number |
| BrowseTypes.SymlinksResolveExact | src/api/types/browse.ts:377-380 | SymlinksResolve accepts exactly the objects with the keys "tmp" and "toto", both strings |
| BrowseTypes.SnapshotSkipDirs | src/api/types/browse.ts:315-321 | An accepted Snapshot has SkipDirs null. Any other SkipDirs is reported against null, and that message cannot be built as written |
| BrowseTypes.BrowseSameNames | src/api/types/browse.ts:282-381 | No descriptor of the map renames a property |
| BrowseTypes.BrowsePropsMapsAgree | src/api/types/browse.ts:151-167 | Each descriptor's jsToJSON props map is its jsonToJS props map |
| BrowseTypes.ToBrowse | src/api/types/browse.ts:121-123 | toBrowse gives an object only for an object; a scalar or array is rejected as "Browse" with no key or parent |
| BrowseTypes.BrowseToJson | src/api/types/browse.ts:125-127 | browseToJson gives an object only for an object; a scalar or array is rejected as "Browse" with no key or parent |
| BrowseTypes.BrowseToJsonIsToBrowse | src/api/types/browse.ts:120-128 | browseToJson checks and returns exactly what toBrowse does |

## Left out

- Network and serialisation: `fetch`, `JSON.parse` and `JSON.stringify` are outside the model. A value is a `Json` tree, and the JSON text of a rejected value is a parameter of `Convert.Message`.
- Date parsing: whether `new Date(v)` is valid for a non-number is an oracle, the `parsesAsDate` field of `Convert.Context`. `new Date(undefined)` is always invalid. The Date's numeric value is not modelled, so a `DateOf` value records only its source.
- Display.DateForDisplay: takes the six components that the local-time getters return, not a Date. Time zones are outside the model.
- Breadcrumb.HrefIsPathPrefix: stated for pathnames with no empty segment. For a pathname such as "/a//b" the links skip the empty segment, so the link of "b" is "/a/b", which is not a prefix of the pathname. `Breadcrumb.PartsOfPieces` covers such pathnames.
- Display.PathForDisplay: the username is matched literally. The source builds a regular expression from it, so a username holding regex metacharacters may match differently there.
- Breadcrumb.Capitalize: `uuidValidate` is a parameter, and `toUpperCase` is modelled for ASCII letters only.
- Strings are sequences of Unicode code points, while JavaScript's `slice`, `charAt` and `length` count UTF-16 code units. Display.UUIDForDisplay therefore differs from `slice(0, 8)` on an id that holds a character outside the Basic Multilingual Plane. Breadcrumb.Capitalize agrees, because only ASCII letters are upper-cased.
- Object members are kept in insertion order, and a lookup takes the first member with the name. JavaScript lists integer-like keys first, and has a special `__proto__` key; neither is modelled.
- Convert.Transform: its precondition `TypeMapOk` excludes type maps that map a name to null, and chains of references that loop. On those the source fails too: `null.ref` throws a TypeError, and a cycle loops forever.
- Convert.Transform: `TypeMapOk` also excludes type maps that bind a name to a union. This is a limit of the model, needed for its termination measure. The source handles them: the reference loop stops, because a union has no `ref`, and the union is then checked through `hasOwnProperty("unionMembers")` (src/api/types/browse.ts:233-240). Neither generated map binds a name to null or a union, or has a cycle: `SnapshotsTypeMap` and `BrowseTypeMap` prove `TypeMapOk`.
- Convert.Transform: when `transform` is given a `Date` object to uncast, it is walked as an object with no own members, as JavaScript does. So uncast of a converted value is not proved to give the JSON text back.
- Display.ModeForDisplay: modes are integers, and JavaScript's `&` keeps them modulo 2^32. Fractional or non-finite numbers are outside the model.
- React rendering: DOM focus, the keydown listeners and `router.push` are modelled by the `ListPage` class and its return values. JSX markup, styling and `prettyBytes` are outside the model.
- The props-map cache: `ConvertLoops.ObjectDescriptor` models the cache on a descriptor object. `Convert.Transform` uses the pure `PropsMapOf`, which the cache is proved to return.
- Map literal order: `SnapshotsTypeMap` and `BrowseTypeMap` list their entries in a different order than the source. A map is unordered, so nothing depends on it.

## Findings

| source | as written | input that shows it | evidently intended | confidence | as-written member | corrected member |
|---|---|---|---|---|---|---|
| src/api/types/browse.ts:144 (and src/api/types/snapshots.ts:119) | `prettyTypeName(null)` evaluates `typ.literal` on `null` (`typeof null` is "object"), so `invalidValue` throws a TypeError instead of the "Invalid value" error. The `Snapshot` descriptor declares `SkipDirs` as `null`, so any snapshot whose SkipDirs is not null hits this. | `toBrowse` on a browse document whose `Snapshot.SkipDirs` is `[]` | the message "Invalid value for key "SkipDirs" on Snapshot. Expected null but got []" | not executed | ConvertFacts.NullMismatchMessage | Convert.PrettyTypeName |
