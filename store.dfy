/** Reading and writing Thing files (util/yaml.go, lines 170-284). The
    filesystem is a map from path to entry; the write protocol resolves the
    locator, refuses to replace an existing entry unless asked to, creates a
    missing parent directory and writes the framed serialization. */
module ThingStore {
  import opened Basics
  import opened ThingRecord
  import opened YamlDocument
  import ThingUrl

  datatype Entry = File(data: string) | Dir

  datatype StoreError =
    | Unresolved(cause: ThingUrl.ResolveError)  // passed on from the locator resolver
    | NotOverwriting(path: string)              // "Not overwriting: ..."
    | MkdirFailed(dir: string)                  // os.MkdirAll's error
    | NotADir(path: string)                     // "Existing but not a dir: ..."
    | MarshalFailed                             // yaml.Marshal's error
    | WriteFailed(path: string)                 // os.WriteFile's error
    | OpenFailed(path: string)                  // os.Open's error
    | ReadFailed(path: string)                  // the scanner's read error
    | ScanFailed(scanError: ScanError)           // the document scanner collected nothing
    | UnmarshalFailed                           // yaml.Unmarshal's error

  // ---------------------------------------------------------------------------
  // Paths

  /** filepath.Split: everything up to and including the last '/', and the rest. */
  function SplitPath(path: string): (parts: (string, string))
    ensures parts.0 + parts.1 == path
    ensures forall k | 0 <= k < |parts.1| :: parts.1[k] != '/'
    ensures parts.0 == "" || parts.0[|parts.0| - 1] == '/'
    ensures path != "" && path[0] == '/' ==> parts.0 != ""
  {
    if path == "" then ("", "")
    else if path[|path| - 1] == '/' then (path, "")
    else
      var prefix := SplitPath(path[..|path| - 1]);
      (prefix.0, prefix.1 + [path[|path| - 1]])
  }

  /** The entry os.Stat consults: a trailing '/' names the directory itself. */
  function StatKey(p: string): string
  {
    if |p| > 1 && p[|p| - 1] == '/' then p[..|p| - 1] else p
  }

  function StatEntry(entries: map<string, Entry>, p: string): Option<Entry>
  {
    if StatKey(p) in entries then Some(entries[StatKey(p)]) else None
  }

  /** The directories MkdirAll must see to: every prefix of `d` that ends
      just before a '/', and `d` itself. */
  function Ancestors(d: string): set<string>
  {
    set i | 1 <= i <= |d| && (i == |d| || d[i] == '/') :: d[..i]
  }

  /** os.MkdirAll: fails, creating nothing, when an ancestor is a file;
      otherwise every ancestor becomes (or stays) a directory. */
  function MkdirAllResult(entries: map<string, Entry>, dir: string): (r: (map<string, Entry>, bool))
    ensures !r.1 ==> r.0 == entries
    ensures r.1 ==> forall p | p in Ancestors(StatKey(dir)) :: p in r.0 && r.0[p] == Dir
    ensures r.1 ==> forall p | p in entries :: p in r.0 && (r.0[p] == entries[p] || p in Ancestors(StatKey(dir)))
    ensures r.1 ==> forall p | p in r.0 :: p in entries || p in Ancestors(StatKey(dir))
    ensures r.1 <==> forall p | p in Ancestors(StatKey(dir)) && p in entries :: entries[p] == Dir
  {
    var a := Ancestors(StatKey(dir));
    if exists p | p in a && p in entries :: entries[p] != Dir then (entries, false)
    else (entries + map p | p in a :: Dir, true)
  }

  /** os.WriteFile: creates or truncates a regular file; a directory, or a
      name ending in '/', cannot be written. */
  function WriteFileResult(entries: map<string, Entry>, name: string, data: string): (r: (map<string, Entry>, bool))
    ensures r.1 <==> (name == "" || name[|name| - 1] != '/') && !(name in entries && entries[name] == Dir)
    ensures r.1 ==> r.0 == entries[name := File(data)]
    ensures !r.1 ==> r.0 == entries
  {
    if (name != "" && name[|name| - 1] == '/') || (name in entries && entries[name] == Dir) then (entries, false)
    else (entries[name := File(data)], true)
  }

  /** The filesystem the store works on. */
  class FileSystem {
    var entries: map<string, Entry>

    constructor (initial: map<string, Entry>)
      ensures entries == initial
    {
      entries := initial;
    }

    function Stat(p: string): Option<Entry>
      reads this
    {
      StatEntry(entries, p)
    }

    method MkdirAll(dir: string) returns (ok: bool)
      modifies this
      ensures (entries, ok) == MkdirAllResult(old(entries), dir)
    {
      var r := MkdirAllResult(entries, dir);
      entries, ok := r.0, r.1;
    }

    method WriteFile(name: string, data: string) returns (ok: bool)
      modifies this
      ensures (entries, ok) == WriteFileResult(old(entries), name, data)
    {
      var r := WriteFileResult(entries, name, data);
      entries, ok := r.0, r.1;
    }
  }

  // ---------------------------------------------------------------------------
  // Reading

  /** What ReadYAMLDocumentFromFile returns for the file named `name`. */
  function ReadDocument(entries: map<string, Entry>, name: string): (string, Option<StoreError>)
  {
    if name !in entries then ("", Some(OpenFailed(name)))
    else if entries[name].Dir? then ("", Some(ReadFailed(name)))
    else
      var doc := DocumentLines(SplitLines(entries[name].data));
      (Join(doc, "\n"), if doc == [] then Some(ScanFailed(NoSensibleData)) else None)
  }

  method ReadYAMLDocumentFromFile(fs: FileSystem, name: string) returns (content: string, err: Option<StoreError>)
    ensures (content, err) == ReadDocument(fs.entries, name)
  {
    if name !in fs.entries {
      return "", Some(OpenFailed(name));
    }
    if fs.entries[name].Dir? {
      return "", Some(ReadFailed(name));
    }
    var scanErr;
    content, scanErr := ReadYAMLDocument(SplitLines(fs.entries[name].data));
    err := if scanErr == None then None else Some(ScanFailed(NoSensibleData));
  }

  /** What ParseThingFromFile returns: a brand-new Thing alongside a read
      error, otherwise ParseThing of the extracted document. */
  function ParseFromFile(entries: map<string, Entry>, codec: YamlCodec, minted: string, name: string): (Thing, Option<StoreError>)
  {
    var (content, err) := ReadDocument(entries, name);
    if err != None then (NewThingValue(minted), err)
    else
      var d := ParseThing(codec, content, minted);
      (d.thing, if d.failed then Some(UnmarshalFailed) else None)
  }

  method ParseThingFromFile(fs: FileSystem, codec: YamlCodec, minted: string, name: string) returns (t: Thing, err: Option<StoreError>)
    ensures (t, err) == ParseFromFile(fs.entries, codec, minted, name)
  {
    var content;
    content, err := ReadYAMLDocumentFromFile(fs, name);
    if err != None {
      var blank := NewThing(minted);
      return blank.thing, err;
    }
    var d := ParseThing(codec, content, minted);
    t := d.thing;
    err := if d.failed then Some(UnmarshalFailed) else None;
  }

  // ---------------------------------------------------------------------------
  // Writing

  /** The new filesystem, the caller's Thing after the call, and the error of
      SerializeThingToFile. */
  datatype Serialized = Serialized(entries: map<string, Entry>, thing: Thing, err: Option<StoreError>)

  function SerializeToFile(entries: map<string, Entry>, thing: Thing, codec: YamlCodec, minted: string, name: string): Serialized
  {
    var t := EnsureId(thing, minted);
    match codec.marshal(t)
    case None => Serialized(entries, t, Some(MarshalFailed))
    case Some(bytes) =>
      var w := WriteFileResult(entries, name, Frame(bytes));
      Serialized(w.0, t, if w.1 then None else Some(WriteFailed(name)))
  }

  method SerializeThingToFile(fs: FileSystem, thing: ThingRef, codec: YamlCodec, minted: string, name: string) returns (err: Option<StoreError>)
    modifies fs, thing
    ensures Serialized(fs.entries, thing.thing, err) == SerializeToFile(old(fs.entries), old(thing.thing), codec, minted, name)
  {
    var thingBytes := SerializeThing(thing, codec, minted);
    if thingBytes == None {
      return Some(MarshalFailed);
    }
    var ntbs := Join(["---", thingBytes.value], "\n");
    var ok := fs.WriteFile(name, ntbs);
    err := if ok then None else Some(WriteFailed(name));
  }

  /** The new filesystem, the caller's Thing after the call, and the three
      results of WriteThingFile. */
  datatype Written = Written(entries: map<string, Entry>, thing: Thing, dir: string, file: string, err: Option<StoreError>)

  /** WriteThingFile once the locator has resolved to the local `path`: the
      no-overwrite check, the parent directory check and creation, the write. */
  function WriteAt(entries: map<string, Entry>, thing: Thing, codec: YamlCodec, minted: string,
                   path: string, overwrite: bool): Written
  {
    if !overwrite && StatEntry(entries, path) != None then Written(entries, thing, path, "", Some(NotOverwriting(path)))
    else
      var (dir, file) := SplitPath(path);
      match StatEntry(entries, dir)
      case None =>
        var (made, ok) := MkdirAllResult(entries, dir);
        if !ok then Written(made, thing, dir, file, Some(MkdirFailed(dir)))
        else
          var s := SerializeToFile(made, thing, codec, minted, path);
          Written(s.entries, s.thing, dir, file, s.err)
      case Some(e) =>
        if e != Dir then Written(entries, thing, dir, file, Some(NotADir(path)))
        else
          var s := SerializeToFile(entries, thing, codec, minted, path);
          Written(s.entries, s.thing, dir, file, s.err)
  }

  function WriteThing(entries: map<string, Entry>, thing: Thing, codec: YamlCodec, minted: string,
                      url: ThingUrl.URL, context: ThingUrl.URL, overwrite: bool): Written
    requires ThingUrl.Resolvable(url, context)
  {
    var (path, rerr) := ThingUrl.LocalPath(url, context);
    if rerr != None then Written(entries, thing, path, "", Some(Unresolved(rerr.value)))
    else WriteAt(entries, thing, codec, minted, path, overwrite)
  }

  /** WriteThingFile, with the locator resolved by GetPathFromThingURL. */
  method WriteThingFile(fs: FileSystem, thing: ThingRef, codec: YamlCodec, minted: string,
                        url: ThingUrl.URL, context: ThingUrl.URL, overwrite: bool)
    returns (dir: string, file: string, err: Option<StoreError>)
    requires ThingUrl.Resolvable(url, context)
    modifies fs, thing
    ensures Written(fs.entries, thing.thing, dir, file, err)
         == WriteThing(old(fs.entries), old(thing.thing), codec, minted, url, context, overwrite)
  {
    var path, rerr := ThingUrl.GetPathFromThingURL(url, context);
    if rerr != None {
      return path, "", Some(Unresolved(rerr.value));
    }
    if !overwrite {
      if fs.Stat(path) != None {
        return path, "", Some(NotOverwriting(path));
      }
    }
    var parts := SplitPath(path);
    dir, file := parts.0, parts.1;
    var dh := fs.Stat(dir);
    if dh == None {
      var ok := fs.MkdirAll(dir);
      if !ok {
        return dir, file, Some(MkdirFailed(dir));
      }
    } else if dh.value != Dir {
      return dir, file, Some(NotADir(path));
    }
    err := SerializeThingToFile(fs, thing, codec, minted, path);
  }

  /** CreateNewThingFile: a new Thing, written without ever replacing an entry. */
  function CreateNew(entries: map<string, Entry>, codec: YamlCodec, minted: string,
                     url: ThingUrl.URL, context: ThingUrl.URL): Written
    requires ThingUrl.Resolvable(url, context)
  {
    WriteThing(entries, NewThingValue(minted), codec, minted, url, context, false)
  }

  method CreateNewThingFile(fs: FileSystem, codec: YamlCodec, minted: string, url: ThingUrl.URL, context: ThingUrl.URL)
    returns (t: ThingRef, err: Option<StoreError>)
    requires ThingUrl.Resolvable(url, context)
    modifies fs
    ensures fresh(t)
    ensures fs.entries == CreateNew(old(fs.entries), codec, minted, url, context).entries
    ensures t.thing == CreateNew(old(fs.entries), codec, minted, url, context).thing
    ensures err == CreateNew(old(fs.entries), codec, minted, url, context).err
  {
    t := NewThing(minted);
    var _, _, e := WriteThingFile(fs, t, codec, minted, url, context, false);
    err := e;
  }

  // ---------------------------------------------------------------------------
  // Properties of the write protocol

  /** Without overwrite, any entry already at the resolved path is an error
      that leaves the filesystem and the caller's Thing untouched. */
  lemma NoOverwriteLeavesStoreUnchanged(entries: map<string, Entry>, thing: Thing, codec: YamlCodec, minted: string,
                                        url: ThingUrl.URL, context: ThingUrl.URL)
    requires ThingUrl.Resolvable(url, context)
    requires ThingUrl.LocalPath(url, context).1 == None
    requires StatEntry(entries, ThingUrl.LocalPath(url, context).0) != None
    ensures var w := WriteThing(entries, thing, codec, minted, url, context, false);
            w.err == Some(NotOverwriting(ThingUrl.LocalPath(url, context).0)) &&
            w.entries == entries && w.thing == thing
  {
  }

  /** A successful SerializeThingToFile has written exactly the framed
      marshalling of the identified Thing under `name`. */
  lemma SerializeSuccess(entries: map<string, Entry>, thing: Thing, codec: YamlCodec, minted: string, name: string)
    ensures var s := SerializeToFile(entries, thing, codec, minted, name);
            s.thing == EnsureId(thing, minted) &&
            (s.err == None ==>
              codec.marshal(s.thing).Some? &&
              (name == "" || name[|name| - 1] != '/') &&
              s.entries == entries[name := File(Frame(codec.marshal(s.thing).value))])
  {
  }

  /** The file protocol, for a resolved absolute path: an error-free write
      has stored the framed serialization of the identified Thing at `path`,
      a file name inside a directory that now exists. */
  lemma {:induction false} WriteAtStoresFile(entries: map<string, Entry>, thing: Thing, codec: YamlCodec, minted: string,
                                             path: string, overwrite: bool)
    requires path != "" && path[0] == '/'
    ensures var w := WriteAt(entries, thing, codec, minted, path, overwrite);
            w.err == None ==>
              w.dir + w.file == path && w.file != "" &&
              w.thing == EnsureId(thing, minted) &&
              codec.marshal(w.thing).Some? &&
              path in w.entries && w.entries[path] == File(Frame(codec.marshal(w.thing).value)) &&
              StatEntry(w.entries, w.dir) == Some(Dir)
  {
    var w := WriteAt(entries, thing, codec, minted, path, overwrite);
    if w.err == None {
      var (dir, file) := SplitPath(path);
      var base := if StatEntry(entries, dir) == None then MkdirAllResult(entries, dir).0 else entries;
      SerializeSuccess(base, thing, codec, minted, path);
      assert w.entries == base[path := File(Frame(codec.marshal(w.thing).value))];
      var d := StatKey(dir);
      assert d[..|d|] == d;
      assert d in Ancestors(d);
      assert file != "";
      assert d != path;
    }
  }

  /** The file protocol in full, for a resolved absolute path: the file is
      stored as above, and every other entry is as before except the
      directories MkdirAll saw to; nothing else is added. */
  lemma {:induction false} WriteAtSuccess(entries: map<string, Entry>, thing: Thing, codec: YamlCodec, minted: string,
                                          path: string, overwrite: bool)
    requires path != "" && path[0] == '/'
    ensures var w := WriteAt(entries, thing, codec, minted, path, overwrite);
            w.err == None ==>
              w.dir + w.file == path && w.file != "" &&
              w.thing == EnsureId(thing, minted) &&
              codec.marshal(w.thing).Some? &&
              path in w.entries && w.entries[path] == File(Frame(codec.marshal(w.thing).value)) &&
              StatEntry(w.entries, w.dir) == Some(Dir) &&
              (forall p | p in entries :: p in w.entries) &&
              (forall p | p in w.entries :: p in entries || p == path || p in Ancestors(StatKey(w.dir))) &&
              (forall p | p in entries && p != path && p !in Ancestors(StatKey(w.dir)) :: w.entries[p] == entries[p])
  {
    var w := WriteAt(entries, thing, codec, minted, path, overwrite);
    WriteAtStoresFile(entries, thing, codec, minted, path, overwrite);
    if w.err == None {
      var (dir, file) := SplitPath(path);
      var base := if StatEntry(entries, dir) == None then MkdirAllResult(entries, dir).0 else entries;
      SerializeSuccess(base, thing, codec, minted, path);
      assert w.entries == base[path := File(Frame(codec.marshal(w.thing).value))];
    }
  }

  /** A write that reports no error has stored the framed serialization of
      the caller's Thing (its identifier now ensured) at a local path inside
      the context, under a directory that now exists; no entry other than
      that file and the directories MkdirAll saw to was added or changed. */
  lemma {:induction false} WriteSuccess(entries: map<string, Entry>, thing: Thing, codec: YamlCodec, minted: string,
                                        url: ThingUrl.URL, context: ThingUrl.URL, overwrite: bool)
    requires ThingUrl.Resolvable(url, context)
    ensures var w := WriteThing(entries, thing, codec, minted, url, context, overwrite);
            var path := ThingUrl.LocalPath(url, context).0;
            w.err == None ==>
              HasPrefix(path, context.path) &&
              w.dir + w.file == path && w.file != "" &&
              w.thing == EnsureId(thing, minted) &&
              codec.marshal(w.thing).Some? &&
              path in w.entries && w.entries[path] == File(Frame(codec.marshal(w.thing).value)) &&
              StatEntry(w.entries, w.dir) == Some(Dir) &&
              (forall p | p in entries :: p in w.entries) &&
              (forall p | p in w.entries :: p in entries || p == path || p in Ancestors(StatKey(w.dir))) &&
              (forall p | p in entries && p != path && p !in Ancestors(StatKey(w.dir)) :: w.entries[p] == entries[p])
  {
    var (path, rerr) := ThingUrl.LocalPath(url, context);
    if rerr == None {
      ThingUrl.LocalPathIsContained(url, context);
      assert path[..|context.path|] == context.path;
      WriteAtSuccess(entries, thing, codec, minted, path, overwrite);
    }
  }

  /** A parent that exists but is no directory is an error; no file is
      written and the caller's Thing is untouched. */
  lemma ParentNotADirRefused(entries: map<string, Entry>, thing: Thing, codec: YamlCodec, minted: string,
                             url: ThingUrl.URL, context: ThingUrl.URL, overwrite: bool)
    requires ThingUrl.Resolvable(url, context)
    requires ThingUrl.LocalPath(url, context).1 == None
    requires overwrite || StatEntry(entries, ThingUrl.LocalPath(url, context).0) == None
    requires StatEntry(entries, SplitPath(ThingUrl.LocalPath(url, context).0).0).Some?
    requires StatEntry(entries, SplitPath(ThingUrl.LocalPath(url, context).0).0).value.File?
    ensures var w := WriteThing(entries, thing, codec, minted, url, context, overwrite);
            w.err == Some(NotADir(ThingUrl.LocalPath(url, context).0)) &&
            w.entries == entries && w.thing == thing
  {
  }

  /** When the write goes through: a local resolved path naming a file,
      nothing in the way (unless overwriting), no ancestor directory that is
      a file, and a Thing the library can marshal. A missing parent is
      created on the way; an existing file is replaced when overwriting. */
  lemma {:induction false} WriteSucceeds(entries: map<string, Entry>, thing: Thing, codec: YamlCodec, minted: string,
                                         url: ThingUrl.URL, context: ThingUrl.URL, overwrite: bool)
    requires ThingUrl.Resolvable(url, context)
    requires ThingUrl.LocalPath(url, context).1 == None
    requires overwrite || StatEntry(entries, ThingUrl.LocalPath(url, context).0) == None
    requires SplitPath(ThingUrl.LocalPath(url, context).0).1 != ""
    requires ThingUrl.LocalPath(url, context).0 in entries ==> entries[ThingUrl.LocalPath(url, context).0].File?
    requires forall p | p in Ancestors(StatKey(SplitPath(ThingUrl.LocalPath(url, context).0).0)) && p in entries :: entries[p] == Dir
    requires codec.marshal(EnsureId(thing, minted)).Some?
    ensures WriteThing(entries, thing, codec, minted, url, context, overwrite).err == None
  {
    var path := ThingUrl.LocalPath(url, context).0;
    ThingUrl.LocalPathIsContained(url, context);
    assert path[..|context.path|] == context.path;
    WriteAtSucceeds(entries, thing, codec, minted, path, overwrite);
  }

  /** WriteSucceeds for a resolved absolute path. */
  lemma {:induction false} WriteAtSucceeds(entries: map<string, Entry>, thing: Thing, codec: YamlCodec, minted: string,
                                           path: string, overwrite: bool)
    requires path != "" && path[0] == '/'
    requires overwrite || StatEntry(entries, path) == None
    requires SplitPath(path).1 != ""
    requires path in entries ==> entries[path].File?
    requires forall p | p in Ancestors(StatKey(SplitPath(path).0)) && p in entries :: entries[p] == Dir
    requires codec.marshal(EnsureId(thing, minted)).Some?
    ensures WriteAt(entries, thing, codec, minted, path, overwrite).err == None
  {
    var (dir, file) := SplitPath(path);
    var d := StatKey(dir);
    assert d != "" && d[..|d|] == d;
    assert d in Ancestors(d);
    assert path[|path| - 1] == file[|file| - 1];
  }

  /** Creating twice at the same locator: the second call is refused and the
      first file's bytes stay as they were. */
  lemma {:induction false} CreateTwiceRefused(entries: map<string, Entry>, codec: YamlCodec, minted1: string, minted2: string,
                                              url: ThingUrl.URL, context: ThingUrl.URL)
    requires ThingUrl.Resolvable(url, context)
    requires CreateNew(entries, codec, minted1, url, context).err == None
    ensures var first := CreateNew(entries, codec, minted1, url, context);
            var second := CreateNew(first.entries, codec, minted2, url, context);
            second.err == Some(NotOverwriting(ThingUrl.LocalPath(url, context).0)) &&
            second.entries == first.entries
  {
    var path := ThingUrl.LocalPath(url, context).0;
    var first := CreateNew(entries, codec, minted1, url, context);
    WriteSuccess(entries, NewThingValue(minted1), codec, minted1, url, context, false);
    assert path[|path| - 1] != '/';
    assert StatKey(path) == path;
    NoOverwriteLeavesStoreUnchanged(first.entries, NewThingValue(minted2),
                                    codec, minted2, url, context);
  }

  /** Writing the same Thing again with overwrite succeeds and leaves the
      filesystem as the first write left it. */
  lemma {:induction false} RewriteIsStable(entries: map<string, Entry>, thing: Thing, codec: YamlCodec, minted1: string, minted2: string,
                                           url: ThingUrl.URL, context: ThingUrl.URL, overwrite: bool)
    requires ThingUrl.Resolvable(url, context)
    requires WriteThing(entries, thing, codec, minted1, url, context, overwrite).err == None
    ensures var first := WriteThing(entries, thing, codec, minted1, url, context, overwrite);
            var again := WriteThing(first.entries, first.thing, codec, minted2, url, context, true);
            again.err == None && again.entries == first.entries && again.thing == first.thing
  {
    var path := ThingUrl.LocalPath(url, context).0;
    ThingUrl.LocalPathIsContained(url, context);
    assert path[..|context.path|] == context.path;
    WriteAtRewriteIsStable(entries, thing, codec, minted1, minted2, path, overwrite);
  }

  /** RewriteIsStable for a resolved absolute path. */
  lemma {:induction false} WriteAtRewriteIsStable(entries: map<string, Entry>, thing: Thing, codec: YamlCodec,
                                                  minted1: string, minted2: string, path: string, overwrite: bool)
    requires path != "" && path[0] == '/'
    requires WriteAt(entries, thing, codec, minted1, path, overwrite).err == None
    ensures var first := WriteAt(entries, thing, codec, minted1, path, overwrite);
            var again := WriteAt(first.entries, first.thing, codec, minted2, path, true);
            again.err == None && again.entries == first.entries && again.thing == first.thing
  {
    var first := WriteAt(entries, thing, codec, minted1, path, overwrite);
    WriteAtStoresFile(entries, thing, codec, minted1, path, overwrite);
    var (dir, file) := SplitPath(path);
    assert first.dir == dir && StatEntry(first.entries, dir) == Some(Dir);
    assert EnsureId(first.thing, minted2) == first.thing;
    var bytes := Frame(codec.marshal(first.thing).value);
    assert first.entries[path := File(bytes)] == first.entries;
    assert SerializeToFile(first.entries, first.thing, codec, minted2, path)
        == Serialized(first.entries, first.thing, None);
  }

  // ---------------------------------------------------------------------------
  // Round trip through a file

  /** The YAML library reads back what it wrote for `t`: the marshalled text
      is one marker-free document and unmarshals, without its final newline,
      to `t` again. */
  predicate ReadsBack(codec: YamlCodec, t: Thing)
  {
    codec.marshal(t).Some? &&
    PlainBody(codec.marshal(t).value) &&
    codec.unmarshal(Join(SplitLines(codec.marshal(t).value), "\n")) == Decoded(t, false)
  }

  /** SerializeThingToFile then ParseThingFromFile gives the written Thing
      back, with an identifier that survives the trip: an existing one
      unchanged, otherwise the one generated on the way out. */
  lemma {:induction false} FileRoundTrip(entries: map<string, Entry>, thing: Thing, codec: YamlCodec,
                                         minted1: string, minted2: string, name: string)
    requires ReadsBack(codec, EnsureId(thing, minted1))
    ensures var s := SerializeToFile(entries, thing, codec, minted1, name);
            s.err == None ==>
              ParseFromFile(s.entries, codec, minted2, name) == (s.thing, None) &&
              s.thing.id.uuid != "" &&
              (thing.id.uuid != "" ==> s.thing.id.uuid == thing.id.uuid)
  {
    var s := SerializeToFile(entries, thing, codec, minted1, name);
    if s.err == None {
      var body := codec.marshal(s.thing).value;
      FramingRoundTrip(body);
      assert s.entries[name] == File(Frame(body));
    }
  }
}
