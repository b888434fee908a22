# natem `util/` core in Dafny

A model of the two pieces of `util/` that carry the logic of this personal
knowledge base, whose records ("Things") live as YAML files under a
context directory:

- **Locator resolver** (`util/url.go`, module `ThingUrl` in `url.dfy`).
  `ParseThingURL` resolves a parsed thing URL against a parsed context URL.
  It rejects an empty thing path and a context path that is not absolute.
  It prefixes a relative thing path with the context path, and refuses an
  absolute thing path that does not literally start with the context path.
  It reconciles schemes and classifies the final scheme against the
  read-only and read-write tables. `GetPathFromThingURL` also insists on the
  `file` scheme. Each Go function is a method; `Resolve` and `LocalPath` are
  the pure functions the methods are proved equal to, and the lemmas state
  the resolver's promises about them. The main one: an error-free result has
  a path that starts with the context path.
- **Thing record and codec** (`util/yaml.go`, module `ThingRecord` in
  `record.dfy`). Covers the `Thing` record, `GenId`, `NewThing`, and the
  "generate an identifier only if it is empty" rule of `ParseThing` and
  `SerializeThing`. A `*Thing` is the class `ThingRef`, whose methods update
  the record in place. The YAML library is a `YamlCodec` value (a marshal and
  an unmarshal function). A UUID is a `minted` string argument.
- **Document scanner and framing** (`util/yaml.go`, module `YamlDocument` in
  `document.dfy`). Covers the line scanner of `ReadYAMLDocumentFromFile`.
  It is a loop with a `startDocument` flag: skip to the first line starting
  with `---`, collect lines up to the next such line, join them with `"\n"`,
  and fail when nothing was collected. Also covers the `"---" + "\n" + body`
  framing written on output, and the round trip between the two.
- **Store operations** (`util/yaml.go`, module `ThingStore` in `store.dfy`).
  The filesystem is the class `FileSystem`, which holds a
  `map<string, Entry>` with `Entry = File(data) | Dir`.
  `ReadYAMLDocumentFromFile`, `ParseThingFromFile`, `SerializeThingToFile`,
  `WriteThingFile` and `CreateNewThingFile` are methods. Each is proved equal
  to a pure function of the old filesystem and the old Thing. The lemmas
  state the write protocol: no overwrite without `overwrite`, a missing
  parent created, a parent that is no directory refused, the framed
  serialization stored, and the identifier surviving a write and read.

Both locators arrive already parsed into `URL(scheme, host, opaquePart, path)`
records. Go's `(*ThingURL, error)` pair is `Resolution(thingUrl, err)`. Either
half may be present, as at `util/url.go:66,77,85`, where a value comes back
together with an error.

The code, and so the model, has no context-required flag. It does not reject
`..` segments. It ignores any document after the first rather than
rejecting the file, and it writes files in place rather than through a
temporary file and a rename. Containment is textual.
`ThingUrl.SiblingDirectoryPassesPrefixCheck` shows that `/home/foobar/x.yml`
passes against the context `/home/foo`.

## Model

| member | source | states |
|---|---|---|
| ThingUrl.IsSupportedThingURLScheme | util/url.go:27-44 | the two loops raise `isRO` exactly for a scheme in the read-only table and `isRW` exactly for one in the read-write table: (true, true) for `file`, (true, false) for `http` and `https`, (false, false) otherwise; RW implies RO |
| ThingUrl.ParseThingURL | util/url.go:46-87 | for parsed URLs, the step-by-step rewrite of the thing's path and scheme returns exactly the resolution `Resolve` describes, the source of the resolver lemmas below; callable whenever the context path is only indexed when non-empty |
| ThingUrl.EmptyThingPathRejected | util/url.go:56-58 | an empty thing path gives an error and no ThingURL, whatever the context |
| ThingUrl.RelativeContextRejected | util/url.go:59-61 | a context path whose first character is not `/` gives an error and no ThingURL |
| ThingUrl.ValueReturnedIffResolvable | util/url.go:56-86 | a ThingURL value comes back exactly when the thing path is non-empty and the context path absolute, and it always carries the context's path |
| ThingUrl.RelativePathComposed | util/url.go:63-64 | a relative thing path becomes exactly context path + `/` + thing path |
| ThingUrl.AbsolutePathKept | util/url.go:63-67 | an absolute thing path is never rewritten; without the context path as a literal prefix it is an error with RW false |
| ThingUrl.ResolvedPathContained | util/url.go:63-67 | whenever no error is returned there is a value and its path starts with the context path |
| ThingUrl.SiblingDirectoryPassesPrefixCheck | util/url.go:65 | containment is a string-prefix test: `/home/foobar/x.yml` resolves without error against the context `/home/foo` |
| ThingUrl.SchemeReconciliation | util/url.go:69-79 | an empty thing scheme becomes the context's scheme, or `file` when that is empty too; an explicit scheme different from the context's is an error with RW false |
| ThingUrl.FinalClassification | util/url.go:81-86 | after reconciliation: no error iff the scheme is file, http or https; otherwise the incompatible-scheme error, still with a ThingURL; RW iff the scheme is `file` |
| ThingUrl.WritableMeansLocal | util/url.go:81-86 | a ThingURL with RW set comes without error and has scheme `file` |
| ThingUrl.GetPathFromThingURL | util/url.go:90-96 | returns the resolved path, with the not-local error replacing the resolver's whenever the resolved scheme is not `file` (as `LocalPath`); callable only where the resolver returns a value |
| ThingUrl.LocalPathIsContained | util/url.go:90-96 | the returned string is always the resolved path; a non-`file` scheme always gives an error; an error-free answer is a writable path starting with the context path |
| ThingRecord.ThingRef.GenId | util/yaml.go:110-112 | sets Id.Uuid to `urn:uuid:` + the minted UUID and changes no other field |
| ThingRecord.NewThingValue | util/yaml.go:114-119 | the Thing NewThing builds: equal to the zero Thing except for an Id.Uuid of `urn:uuid:` + the minted UUID |
| ThingRecord.NewThing | util/yaml.go:114-119 | a new object holding `NewThingValue`: a zero Thing except for an Id.Uuid that starts with `urn:uuid:` |
| ThingRecord.EnsureId | util/yaml.go:207-209 | the identifier rule: the result's Uuid is never empty, a non-empty Uuid is kept unchanged (the whole Thing is), an empty one becomes `urn:uuid:` + minted, no other field changes |
| ThingRecord.EnsureIdIdempotent | util/yaml.go:233-235 | applying the identifier rule again, with any other minted UUID, changes nothing |
| ThingRecord.ParseThing | util/yaml.go:203-211 | the unmarshalled Thing with a non-empty Uuid preserved as decoded, an empty one replaced by a generated one, never empty; the library's error passed through |
| ThingRecord.ParseKeepsDecodedId | util/yaml.go:206-209 | parsing content that names an identifier does not depend on the UUID generator |
| ThingRecord.SerializeThing | util/yaml.go:230-240 | mutates the caller's Thing to have a non-empty Uuid, keeping an existing one and nothing else changed, and returns the marshalling of the updated Thing |
| YamlDocument.SplitLines | util/yaml.go:180-182 | the scanner's lines: none contains `\n`; no lines exactly for empty input |
| YamlDocument.LinesUntilMarker | util/yaml.go:187-191 | the collection phase: the longest marker-free prefix of the remaining lines, stopped by a marker line |
| YamlDocument.ReadYAMLDocument | util/yaml.go:172-200 | the `startDocument` loop returns the first document's lines joined by `\n`, and the no-sensible-data error (with empty content) exactly when no line was collected |
| YamlDocument.DocumentLinesAfterFirstMarker | util/yaml.go:181-195 | what is extracted is exactly the lines strictly between the first marker line (length at least 3, starting `---`) and the next marker line or the end of input; nothing without a marker |
| YamlDocument.EmptyDocumentCases | util/yaml.go:196-199 | extraction is empty (an error) exactly when there is no marker, the first marker is followed immediately by another, or it is the last line |
| YamlDocument.LaterDocumentsIgnored | util/yaml.go:181-195 | for any marker-free lines before the first marker, any marker-free document and anything after the closing marker, the result is exactly that document: the leading lines are skipped and later documents are ignored |
| YamlDocument.JoinSplitLines | util/yaml.go:200 | joining a text's lines with `\n` gives the text back when it does not end in a newline |
| YamlDocument.FrameLines | util/yaml.go:248-249 | the frame `---` + `\n` + body splits into the marker line followed by the body's lines |
| YamlDocument.FramingRoundTrip | util/yaml.go:248-250 | extracting from the framed body returns the body's lines, and the body itself when it does not end in a newline, provided the body is non-empty and has no marker line |
| ThingStore.SplitPath | util/yaml.go:266 | `filepath.Split`: dir + file is the path, file holds no `/`, dir is empty or ends in `/`, an absolute path has a non-empty dir |
| ThingStore.MkdirAllResult | util/yaml.go:268-272 | `os.MkdirAll`: succeeds iff no ancestor of the directory is a file; then every ancestor is a directory and only ancestors were added; on failure nothing changes |
| ThingStore.WriteFileResult | util/yaml.go:250 | `os.WriteFile`: succeeds iff the name does not end in `/` and is not a directory; then exactly that entry becomes the file, otherwise nothing changes |
| ThingStore.FileSystem.MkdirAll | util/yaml.go:269 | updates the entries as `MkdirAllResult` says |
| ThingStore.FileSystem.WriteFile | util/yaml.go:250 | updates the entries as `WriteFileResult` says |
| ThingStore.ReadYAMLDocumentFromFile | util/yaml.go:170-201 | an open error for a missing file, a read error for a directory, else the scanner run on the file's lines |
| ThingStore.ParseThingFromFile | util/yaml.go:213-220 | a brand-new Thing with the read error, else `ParseThing` of the extracted document |
| ThingStore.SerializeThingToFile | util/yaml.go:242-251 | the caller's Thing gains its identifier, then the framed marshalling is written; a marshal error writes nothing |
| ThingStore.WriteThingFile | util/yaml.go:253-277 | resolution error, no-overwrite check, parent directory check and creation, then the framed write, with the returned dir/file/error of each branch, as `WriteThing` (the resolver, then `WriteAt` on the resolved path) |
| ThingStore.CreateNewThingFile | util/yaml.go:279-284 | a new Thing written with overwrite off, as `CreateNew` |
| ThingStore.NoOverwriteLeavesStoreUnchanged | util/yaml.go:260-265 | without overwrite, any entry at the resolved path is an error and the filesystem and the caller's Thing are unchanged |
| ThingStore.SerializeSuccess | util/yaml.go:242-251 | the Thing gains its identifier in any case; an error-free call wrote exactly the framed marshalling under a name not ending in `/` and changed nothing else |
| ThingStore.WriteAtStoresFile | util/yaml.go:266-276 | for a resolved absolute path, an error-free write stored the framed serialization of the identified Thing at the path, whose directory part now exists and whose file part is non-empty |
| ThingStore.WriteAtSuccess | util/yaml.go:260-276 | for a resolved absolute path, an error-free write stored the file as above; no entry disappeared, and no entry was added or changed other than the file and the directories created |
| ThingStore.WriteSuccess | util/yaml.go:255-276 | an error-free write stored the framed serialization of the identified Thing at a path inside the context, its directory now exists, and no entry was added or changed other than the file and the directories created |
| ThingStore.ParentNotADirRefused | util/yaml.go:273-275 | a parent that exists but is not a directory is an error; nothing is written and the Thing is untouched |
| ThingStore.WriteAtSucceeds | util/yaml.go:260-276 | for a resolved absolute path naming a file, with nothing in the way unless overwriting, no ancestor that is a file and a marshallable Thing, the file protocol reports no error |
| ThingStore.WriteSucceeds | util/yaml.go:255-276 | with a local path naming a file, nothing in the way unless overwriting, no ancestor that is a file and a marshallable Thing, the write succeeds: a missing parent is created and an existing file is replaced |
| ThingStore.CreateTwiceRefused | util/yaml.go:279-284 | a second creation at the same locator is refused and leaves the first file's bytes as they were |
| ThingStore.WriteAtRewriteIsStable | util/yaml_test.go:166-181 | for a resolved absolute path, after a successful write, writing the resulting Thing again with overwrite succeeds and changes neither filesystem nor Thing |
| ThingStore.RewriteIsStable | util/yaml_test.go:166-181 | after a successful write, writing the same Thing again with overwrite succeeds and leaves filesystem and Thing as they were |
| ThingStore.FileRoundTrip | util/yaml_test.go:135-154 | if the YAML library reads back what it writes, serialize-to-file then parse-from-file gives the same Thing, whose non-empty Uuid is the original one when there was one |

## Left out

- Parsing the raw locator strings (`util/url.go:47-54`): `net/url` is a library, so both URLs are inputs and its parse errors are not modelled.
- ThingUrl.ParseThingURL: requires a non-empty context path whenever the thing path is non-empty, because `cu.Path[0]` (`util/url.go:59`) panics otherwise.
- ThingUrl.GetPathFromThingURL: requires that the resolver returns a value (non-empty thing path, absolute context path); otherwise the source dereferences nil (`util/url.go:92`).
- `GetThingURLPath`, called at `util/yaml.go:255`, is not part of this model: `WriteThingFile` resolves with `GetPathFromThingURL`, drops `hasContext`, and carries the same requirement.
- `ValidateThing` and `ValidateJSONThing` (`util/yaml.go:132-167`): pure delegation to the YAML-to-JSON converter and the JSON-Schema library, plus logging.
- `Marshal` (`util/yaml.go:223-228`) only wraps the library and is folded into the codec. The text the YAML library produces (the `uuid:` line the tests look for) is the library's business, as is the format of a UUID.
- The Thing's fields other than `Id` are one uninterpreted map; their YAML shapes are not modelled.
- `bufio.Scanner` details: carriage-return stripping, the 64 KiB line limit, and read errors other than reading a directory.
- Filesystem details: permission bits, stat errors other than exists or not-exists, path normalisation (repeated separators, `.` and `..`), and whether a written file's parent exists (the write protocol creates it first).
- ThingStore.MkdirAllResult: fails without creating anything when any ancestor is a file. This is `os.MkdirAll` on a real directory tree, where a file has no children; the flat map can hold states no real tree has.
- ThingStore.WriteThingFile: a parent that is a file is reported as `NotADir` with `(dir, file)`, the error `util/yaml.go:273-274` is written for. On a real filesystem the source behaves differently in both modes. With overwrite off, `os.Stat(path)` under a file parent fails with ENOTDIR, which is not "does not exist", so the source returns "Not overwriting" with `(path, "")` (`util/yaml.go:261-263`). With overwrite on, `os.Stat` of `file/` fails with ENOTDIR and the source then calls a method on a nil `FileInfo` (`util/yaml.go:267-273`).
- Concurrency between processes writing the same path, and the I/O clock: the model is one sequential process.
- `cmd/` and `kb/`: command wiring, editor launch, printing and process exit.
