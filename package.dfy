/**
 * The package entry points (src/pds/roundup/__init__.py) and context detection
 * (`Context.create` in src/pds/roundup/context.py), which reads the marker table.
 */
module Package {
  import opened Wrappers
  import opened Strings
  import opened Errors
  import opened World
  import opened Contexts

  /** `contextFactories()`: the marker file names and the context class each selects. */
  function ContextFactories(): (t: map<string, ContextKind>)
    ensures t.Keys == {"setup.cfg", "setup.py", "pom.xml", "project.xml"}
    ensures t["setup.cfg"] == PythonContext && t["setup.py"] == PythonContext
    ensures t["pom.xml"] == MavenContext && t["project.xml"] == MavenContext
    ensures NodeJSContext !in t.Values
    ensures "package.json" !in t
  {
    map["setup.cfg" := PythonContext, "setup.py" := PythonContext,
        "pom.xml" := MavenContext, "project.xml" := MavenContext]
  }

  /** The position of the first entry of `listing` that is a marker, if any. */
  function FirstMarker(listing: seq<string>): (r: Option<nat>)
    ensures r.None? <==> forall i :: 0 <= i < |listing| ==> listing[i] !in ContextFactories()
    ensures r.Some? ==> r.value < |listing| && listing[r.value] in ContextFactories()
    ensures r.Some? ==> forall i :: 0 <= i < r.value ==> listing[i] !in ContextFactories()
  {
    if listing == [] then None
    else if listing[0] in ContextFactories() then Some(0)
    else match FirstMarker(listing[1..])
      case None => None
      case Some(i) => Some(i + 1)
  }

  /**
   * What `create(cwd, environ)` yields for a directory listing: the context of the first
   * marker entry, built from the given `cwd` and `environ`. With no marker, `context` is
   * read while unbound.
   */
  function Detect(cwd: string, environ: Environ, listing: seq<string>): (r: Result<Context, Error>)
    ensures r.Err? <==> FirstMarker(listing).None?
    ensures r.Err? ==> r.error == UnboundLocalError("context")
    ensures r.Ok? ==> r.value == New(ContextFactories()[listing[FirstMarker(listing).value]], cwd, environ)
  {
    match FirstMarker(listing)
    case None => Err(UnboundLocalError("context"))
    case Some(i) => Ok(New(ContextFactories()[listing[i]], cwd, environ))
  }

  /** `Context.create`: scan the listing in order and stop at the first marker. */
  method Create(cwd: string, environ: Environ, listing: seq<string>) returns (r: Result<Context, Error>)
    ensures r == Detect(cwd, environ, listing)
  {
    var factories := ContextFactories();
    var factory: Option<ContextKind> := None;
    var i := 0;
    while i < |listing|
      invariant 0 <= i <= |listing|
      invariant factory.None?
      invariant forall j :: 0 <= j < i ==> listing[j] !in factories
    {
      factory := if listing[i] in factories then Some(factories[listing[i]]) else None;
      if factory.Some? {
        break;
      }
      i := i + 1;
    }
    if factory.Some? {
      assert FirstMarker(listing) == Some(i);
      r := Ok(New(factory.value, cwd, environ));
    } else {
      r := Err(UnboundLocalError("context"));
    }
  }

  /** The detected context is built from the `cwd` and `environ` passed in. */
  lemma DetectKeepsArguments(cwd: string, environ: Environ, listing: seq<string>)
    requires Detect(cwd, environ, listing).Ok?
    ensures Detect(cwd, environ, listing).value.cwd == cwd
    ensures Detect(cwd, environ, listing).value.environ == environ
  {
  }

  /** No listing makes detection choose the Node.js context. */
  lemma DetectNeverNodeJS(cwd: string, environ: Environ, listing: seq<string>)
    requires Detect(cwd, environ, listing).Ok?
    ensures Detect(cwd, environ, listing).value.kind != NodeJSContext
  {
    var i := FirstMarker(listing).value;
    assert ContextFactories()[listing[i]] in ContextFactories().Values;
  }

  /**
   * The context is chosen by the first marker: when entry `i` is a marker and none comes
   * before it, detection builds the context that entry's factory names.
   */
  lemma {:induction false} DetectFirstMarker(cwd: string, environ: Environ, listing: seq<string>, i: nat)
    requires i < |listing| && listing[i] in ContextFactories()
    requires forall j :: 0 <= j < i ==> listing[j] !in ContextFactories()
    ensures Detect(cwd, environ, listing) == Ok(New(ContextFactories()[listing[i]], cwd, environ))
  {
    if i > 0 {
      DetectFirstMarker(cwd, environ, listing[1..], i - 1);
    }
  }

  lemma {:induction false} FirstMarkerAppend(listing: seq<string>, more: seq<string>)
    requires FirstMarker(listing).Some?
    ensures FirstMarker(listing + more) == FirstMarker(listing)
  {
    assert forall k :: 0 <= k < |listing| ==> (listing + more)[k] == listing[k];
  }

  /** Once a marker has been seen, entries listed after it are never consulted. */
  lemma DetectIgnoresLaterEntries(cwd: string, environ: Environ, listing: seq<string>, more: seq<string>)
    requires FirstMarker(listing).Some?
    ensures Detect(cwd, environ, listing + more) == Detect(cwd, environ, listing)
  {
    FirstMarkerAppend(listing, more);
    var i := FirstMarker(listing).value;
    assert (listing + more)[i] == listing[i];
  }

  /** `_read_version`: the VERSION.txt text with surrounding whitespace removed. */
  function ReadVersion(text: string): (v: string)
    ensures Trimmed(v) && |v| <= |text|
    ensures v == [] <==> AllSpace(text)
  {
    Strip(text)
  }

  /** Whitespace around the version text, such as a trailing newline, is dropped. */
  lemma ReadVersionPadded(before: string, version: string, after: string)
    requires AllSpace(before) && AllSpace(after) && Trimmed(version)
    ensures ReadVersion(before + version + after) == version
  {
    StripPadded(before, version, after);
  }
}
