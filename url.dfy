/** Resolution of a thing locator against a context locator (util/url.go).
    Both locators arrive already parsed into URL records; the resolver
    composes relative paths, checks textual containment in the context,
    reconciles schemes and classifies the final scheme. */
module ThingUrl {
  import opened Basics

  /** The fields of a parsed net/url record that the resolver reads or writes. */
  datatype URL = URL(scheme: string, host: string, opaquePart: string, path: string)

  /** The resolved thing URL, the context's path and whether the thing may be written. */
  datatype ThingURL = ThingURL(url: URL, contextPath: string, rw: bool)

  datatype ResolveError =
    | EmptyThingPath        // "This thing might not have an empty path."
    | ContextNotAbsolute    // "The context path of this thing must be absolute."
    | UrlsDoNotMatch        // "Thing and context URLs do not match."
    | IncompatibleScheme    // "This URL does not have a compatible scheme."
    | NotLocal              // "This path is not local, scheme must be 'file'."

  /** Go's (*ThingURL, error) pair: a value, an error, or both at once. */
  datatype Resolution = Resolution(thingUrl: Option<ThingURL>, err: Option<ResolveError>)

  const SupportedThingURLSchemesRO: seq<string> := ["file", "http", "https"]
  const SupportedThingURLSchemesRW: seq<string> := ["file"]

  /** Scans both scheme tables, raising a flag for each table that lists the scheme. */
  method IsSupportedThingURLScheme(scheme: string) returns (isRO: bool, isRW: bool)
    ensures isRO <==> scheme in SupportedThingURLSchemesRO
    ensures isRW <==> scheme in SupportedThingURLSchemesRW
    ensures isRO <==> scheme == "file" || scheme == "http" || scheme == "https"
    ensures isRW <==> scheme == "file"
    ensures isRW ==> isRO
  {
    isRO, isRW := false, false;
    var i := 0;
    while i < |SupportedThingURLSchemesRO|
      invariant 0 <= i <= |SupportedThingURLSchemesRO|
      invariant isRO <==> scheme in SupportedThingURLSchemesRO[..i]
    {
      assert SupportedThingURLSchemesRO[..i + 1] == SupportedThingURLSchemesRO[..i] + [SupportedThingURLSchemesRO[i]];
      if SupportedThingURLSchemesRO[i] == scheme {
        isRO := true;
      }
      i := i + 1;
    }
    assert SupportedThingURLSchemesRO[..i] == SupportedThingURLSchemesRO;
    var j := 0;
    while j < |SupportedThingURLSchemesRW|
      invariant 0 <= j <= |SupportedThingURLSchemesRW|
      invariant isRW <==> scheme in SupportedThingURLSchemesRW[..j]
    {
      assert SupportedThingURLSchemesRW[..j + 1] == SupportedThingURLSchemesRW[..j] + [SupportedThingURLSchemesRW[j]];
      if SupportedThingURLSchemesRW[j] == scheme {
        isRW := true;
      }
      j := j + 1;
    }
    assert SupportedThingURLSchemesRW[..j] == SupportedThingURLSchemesRW;
  }

  /** The scheme a thing ends up with: its own, else the context's, else "file". */
  function ReconciledScheme(thing: URL, context: URL): string
  {
    if thing.scheme != "" then thing.scheme
    else if context.scheme != "" then context.scheme
    else "file"
  }

  /** What ParseThingURL returns for already parsed thing and context URLs.
      The context path is only indexed once the thing path is known to be non-empty. */
  function Resolve(thing: URL, context: URL): Resolution
    requires thing.path == "" || context.path != ""
  {
    if thing.path == "" then Resolution(None, Some(EmptyThingPath))
    else if context.path[0] != '/' then Resolution(None, Some(ContextNotAbsolute))
    else if thing.path[0] == '/' && !HasPrefix(thing.path, context.path) then
      Resolution(Some(ThingURL(thing, context.path, false)), Some(UrlsDoNotMatch))
    else
      var composed := if thing.path[0] != '/' then thing.(path := context.path + "/" + thing.path) else thing;
      if thing.scheme != "" && thing.scheme != context.scheme then
        Resolution(Some(ThingURL(composed, context.path, false)), Some(UrlsDoNotMatch))
      else
        var scheme := ReconciledScheme(thing, context);
        var resolved := composed.(scheme := scheme);
        var rw := scheme in SupportedThingURLSchemesRW;
        if scheme in SupportedThingURLSchemesRO then Resolution(Some(ThingURL(resolved, context.path, rw)), None)
        else Resolution(Some(ThingURL(resolved, context.path, rw)), Some(IncompatibleScheme))
  }

  /** Resolves the thing URL against the context URL, rewriting the thing's
      path and scheme in place as the checks go. */
  method ParseThingURL(thing: URL, context: URL) returns (res: Resolution)
    requires thing.path == "" || context.path != ""
    ensures res == Resolve(thing, context)
  {
    var tu := thing;
    if tu.path == "" {
      return Resolution(None, Some(EmptyThingPath));
    }
    if context.path[0] != '/' {
      return Resolution(None, Some(ContextNotAbsolute));
    }
    if tu.path[0] != '/' {
      tu := tu.(path := context.path + "/" + tu.path);
    } else if !HasPrefix(tu.path, context.path) {
      return Resolution(Some(ThingURL(tu, context.path, false)), Some(UrlsDoNotMatch));
    }
    if tu.scheme == "" {
      if context.scheme == "" {
        tu := tu.(scheme := "file");
      } else {
        tu := tu.(scheme := context.scheme);
      }
    } else {
      if context.scheme != tu.scheme {
        return Resolution(Some(ThingURL(tu, context.path, false)), Some(UrlsDoNotMatch));
      }
    }
    var r, w := IsSupportedThingURLScheme(tu.scheme);
    if r {
      res := Resolution(Some(ThingURL(tu, context.path, w)), None);
    } else {
      res := Resolution(Some(ThingURL(tu, context.path, w)), Some(IncompatibleScheme));
    }
  }

  /** The inputs for which ParseThingURL hands back a ThingURL value at all. */
  predicate Resolvable(thing: URL, context: URL)
  {
    thing.path != "" && context.path != "" && context.path[0] == '/'
  }

  /** What GetPathFromThingURL returns: the resolved path, and the resolver's
      error unless the resolved scheme is not "file", which overrides it. */
  function LocalPath(thing: URL, context: URL): (string, Option<ResolveError>)
    requires Resolvable(thing, context)
  {
    var res := Resolve(thing, context);
    var tu := res.thingUrl.value;
    (tu.url.path, if tu.url.scheme != "file" then Some(NotLocal) else res.err)
  }

  /** Resolves and insists on a local path. Called on an input for which
      ParseThingURL returns no value, the source dereferences nil. */
  method GetPathFromThingURL(thing: URL, context: URL) returns (path: string, err: Option<ResolveError>)
    requires Resolvable(thing, context)
    ensures (path, err) == LocalPath(thing, context)
  {
    var uri := ParseThingURL(thing, context);
    err := uri.err;
    if uri.thingUrl.value.url.scheme != "file" {
      err := Some(NotLocal);
    }
    path := uri.thingUrl.value.url.path;
  }

  // ---------------------------------------------------------------------------
  // Properties of the resolver

  /** An empty thing path is rejected with no ThingURL. */
  lemma EmptyThingPathRejected(thing: URL, context: URL)
    requires thing.path == ""
    ensures Resolve(thing, context) == Resolution(None, Some(EmptyThingPath))
  {
  }

  /** A context path that does not start with '/' is rejected with no ThingURL. */
  lemma RelativeContextRejected(thing: URL, context: URL)
    requires thing.path != "" && context.path != "" && context.path[0] != '/'
    ensures Resolve(thing, context) == Resolution(None, Some(ContextNotAbsolute))
  {
  }

  /** Only these two checks withhold the ThingURL value. */
  lemma ValueReturnedIffResolvable(thing: URL, context: URL)
    requires thing.path == "" || context.path != ""
    ensures Resolve(thing, context).thingUrl.Some? <==> Resolvable(thing, context)
    ensures Resolve(thing, context).thingUrl.Some? ==> Resolve(thing, context).thingUrl.value.contextPath == context.path
  {
  }

  /** A relative thing path is rewritten to exactly context path + "/" + thing path. */
  lemma RelativePathComposed(thing: URL, context: URL)
    requires Resolvable(thing, context) && thing.path[0] != '/'
    ensures Resolve(thing, context).thingUrl.value.url.path == context.path + "/" + thing.path
  {
  }

  /** An absolute thing path is never rewritten; without the context path as
      a literal prefix it is refused with RW false. */
  lemma AbsolutePathKept(thing: URL, context: URL)
    requires Resolvable(thing, context) && thing.path[0] == '/'
    ensures Resolve(thing, context).thingUrl.value.url.path == thing.path
    ensures !HasPrefix(thing.path, context.path) ==>
              Resolve(thing, context).err == Some(UrlsDoNotMatch) && !Resolve(thing, context).thingUrl.value.rw
  {
  }

  /** Whenever no error is returned, the resolved path starts with the context path. */
  lemma ResolvedPathContained(thing: URL, context: URL)
    requires thing.path == "" || context.path != ""
    requires Resolve(thing, context).err == None
    ensures Resolve(thing, context).thingUrl.Some?
    ensures HasPrefix(Resolve(thing, context).thingUrl.value.url.path, context.path)
  {
  }

  /** Containment is textual: a sibling directory whose name extends the
      context's last segment passes the check. */
  lemma SiblingDirectoryPassesPrefixCheck()
    ensures Resolve(URL("", "", "", "/home/foobar/x.yml"), URL("", "", "", "/home/foo")).err == None
  {
  }

  /** Scheme reconciliation once the path checks have passed: an empty scheme
      inherits the context's (or "file"), an explicit one must equal the
      context's, else the result is an error with RW false. */
  lemma SchemeReconciliation(thing: URL, context: URL)
    requires Resolvable(thing, context)
    requires thing.path[0] != '/' || HasPrefix(thing.path, context.path)
    ensures thing.scheme == "" && context.scheme != "" ==>
              Resolve(thing, context).thingUrl.value.url.scheme == context.scheme
    ensures thing.scheme == "" && context.scheme == "" ==>
              Resolve(thing, context).thingUrl.value.url.scheme == "file"
    ensures thing.scheme != "" && thing.scheme != context.scheme ==>
              Resolve(thing, context).err == Some(UrlsDoNotMatch) && !Resolve(thing, context).thingUrl.value.rw
    ensures thing.scheme == "" || thing.scheme == context.scheme ==>
              Resolve(thing, context).thingUrl.value.url.scheme == ReconciledScheme(thing, context)
  {
  }

  /** Final classification: once paths and schemes agree, the result is
      error-free exactly when the scheme is file, http or https, RW is set
      exactly for file, and an unsupported scheme still comes with a value. */
  lemma FinalClassification(thing: URL, context: URL)
    requires Resolvable(thing, context)
    requires thing.path[0] != '/' || HasPrefix(thing.path, context.path)
    requires thing.scheme == "" || thing.scheme == context.scheme
    ensures var res := Resolve(thing, context);
            var scheme := ReconciledScheme(thing, context);
            res.thingUrl.Some? &&
            (res.err == None <==> scheme in {"file", "http", "https"}) &&
            (res.err != None ==> res.err == Some(IncompatibleScheme)) &&
            (res.thingUrl.value.rw <==> scheme == "file")
  {
  }

  /** RW never holds without an error-free result on a "file" URL. */
  lemma WritableMeansLocal(thing: URL, context: URL)
    requires thing.path == "" || context.path != ""
    requires Resolve(thing, context).thingUrl.Some? && Resolve(thing, context).thingUrl.value.rw
    ensures Resolve(thing, context).err == None
    ensures Resolve(thing, context).thingUrl.value.url.scheme == "file"
  {
  }

  /** GetPathFromThingURL: a non-"file" scheme always yields an error, the
      path returned is always the resolved one, and an error-free answer is a
      local path inside the context. */
  lemma LocalPathIsContained(thing: URL, context: URL)
    requires Resolvable(thing, context)
    ensures LocalPath(thing, context).0 == Resolve(thing, context).thingUrl.value.url.path
    ensures Resolve(thing, context).thingUrl.value.url.scheme != "file" ==> LocalPath(thing, context).1 == Some(NotLocal)
    ensures LocalPath(thing, context).1 == None ==>
              Resolve(thing, context).err == None &&
              Resolve(thing, context).thingUrl.value.rw &&
              HasPrefix(LocalPath(thing, context).0, context.path)
  {
  }
}
