/** The property table built from every `META-INF/MANIFEST.MF` on the
    classpath: `Manifests` of rexsl-core.

    Loading enumerates the manifest resources, reads the main attributes of
    each one into a map keyed by attribute name, and merges those maps in
    enumeration order, so that a later file overrides an earlier one. Reading
    a property returns its value or fails when no manifest defines it.

    The class loader and the jar-manifest parser are outside the model: a
    resource enumeration is given as its outcome (the list of resources, or
    the I/O failure of enumerating them), and each resource as the outcome of
    opening, parsing and closing it. */
module Manifest {
  import opened Wrappers

  /** The two exceptions the class throws. */
  datatype Error = IllegalState(cause: string) | IllegalArgument(message: string)

  datatype Result<T> = Ok(value: T) | Err(error: Error)

  /** What parsing an opened manifest gives: the failure, or its main attributes
      keyed by the attribute name's string form. */
  datatype Contents = Malformed(cause: string) | Parsed(main: map<string, string>)

  /** What opening a resource gives: the failure, or what its stream holds and
      how closing it goes. */
  datatype Stream = Unopenable(cause: string) | Opened(contents: Contents, closeFailure: Option<string>)

  datatype ManifestUrl = ManifestUrl(url: string, stream: Stream)

  /** What `getResources("META-INF/MANIFEST.MF")` gives. */
  datatype Resources = Unavailable(cause: string) | Found(urls: seq<ManifestUrl>)

  /** The error logged when a stream does not close. */
  datatype LogEntry = CloseFailed(url: string, cause: string)

  /** The message of the failure of `read(name)`. */
  function NotFound(name: string): string
  {
    "Property '" + name + "' not found in any MANIFEST.MF file"
  }

  // ---------------------------------------------------------------------
  // Specification

  /** The resource opens and parses. */
  predicate Readable(u: ManifestUrl)
  {
    u.stream.Opened? && u.stream.contents.Parsed?
  }

  /** The main attributes of a readable resource (none otherwise). */
  function Attributes(u: ManifestUrl): map<string, string>
  {
    if Readable(u) then u.stream.contents.main else map[]
  }

  /** Why an unreadable resource could not be read. */
  function FailureOf(u: ManifestUrl): string
    requires !Readable(u)
  {
    match u.stream
    case Unopenable(cause) => cause
    case Opened(contents, _) => contents.cause
  }

  /** What closing the resource's stream logs: nothing, unless it was opened
      and closing it failed. */
  function CloseLog(u: ManifestUrl): seq<LogEntry>
  {
    if u.stream.Opened? && u.stream.closeFailure.Some? then [CloseFailed(u.url, u.stream.closeFailure.value)] else []
  }

  /** Resource `j` is the first one that cannot be read. */
  predicate FirstUnreadable(urls: seq<ManifestUrl>, j: int)
  {
    && 0 <= j < |urls|
    && !Readable(urls[j])
    && forall i :: 0 <= i < j ==> Readable(urls[i])
  }

  /** The main attributes of every resource, in enumeration order. */
  function AttributesOf(urls: seq<ManifestUrl>): seq<map<string, string>>
  {
    seq(|urls|, i requires 0 <= i < |urls| => Attributes(urls[i]))
  }

  /** Everything the close failures of the resources log, in order. */
  function CloseLogs(urls: seq<ManifestUrl>): seq<LogEntry>
  {
    if urls == [] then []
    else CloseLogs(urls[..|urls| - 1]) + CloseLog(urls[|urls| - 1])
  }

  /** `putAll` of each map in turn into an empty map. */
  function Merge(ms: seq<map<string, string>>): map<string, string>
  {
    if ms == [] then map[]
    else Merge(ms[..|ms| - 1]) + ms[|ms| - 1]
  }

  /** The merged key set is the union of the key sets. */
  lemma {:induction false} MergeKeys(ms: seq<map<string, string>>, k: string)
    ensures k in Merge(ms) <==> exists i :: 0 <= i < |ms| && k in ms[i]
  {
    if ms != [] {
      var init := ms[..|ms| - 1];
      MergeKeys(init, k);
      if exists i :: 0 <= i < |ms| && k in ms[i] {
        var i :| 0 <= i < |ms| && k in ms[i];
        if i < |ms| - 1 {
          assert k in init[i];
        }
      }
      if exists i :: 0 <= i < |init| && k in init[i] {
        var i :| 0 <= i < |init| && k in init[i];
        assert k in ms[i];
      }
    }
  }

  /** For a key several maps define, the last of them wins. */
  lemma {:induction false} MergeLastWins(ms: seq<map<string, string>>, j: int, k: string)
    requires 0 <= j < |ms| && k in ms[j]
    requires forall i :: j < i < |ms| ==> k !in ms[i]
    ensures k in Merge(ms) && Merge(ms)[k] == ms[j][k]
  {
    if j < |ms| - 1 {
      var init := ms[..|ms| - 1];
      assert forall i :: j < i < |init| ==> init[i] == ms[i];
      MergeLastWins(init, j, k);
    }
  }

  // ---------------------------------------------------------------------
  // Loading

  /** `loadOneFile(url)`: the main attributes of one manifest, or the failure
      to open or parse it; a failure to close is only logged. */
  method LoadOneFile(u: ManifestUrl) returns (r: Result<map<string, string>>, log: seq<LogEntry>)
    ensures r.Ok? <==> Readable(u)
    ensures r.Ok? ==> r.value.Keys == Attributes(u).Keys
    ensures r.Ok? ==> forall name :: name in Attributes(u) ==> r.value[name] == Attributes(u)[name]
    ensures r.Err? ==> r.error == IllegalState(FailureOf(u))
    ensures log == CloseLog(u)
  {
    log := [];
    match u.stream {
      case Unopenable(cause) =>
        return Err(IllegalState(cause)), [];
      case Opened(contents, closeFailure) =>
        match contents {
          case Malformed(cause) =>
            r := Err(IllegalState(cause));
          case Parsed(attrs) =>
            var props: map<string, string> := map[];
            var names := attrs.Keys;
            while names != {}
              invariant names <= attrs.Keys
              invariant props.Keys == attrs.Keys - names
              invariant forall n :: n in props ==> props[n] == attrs[n]
              decreases names
            {
              var n :| n in names;
              props := props[n := attrs[n]];
              names := names - {n};
            }
            r := Ok(props);
        }
        if closeFailure.Some? {
          log := [CloseFailed(u.url, closeFailure.value)];
        }
    }
  }

  /** `load()`: every manifest in enumeration order, merged; the first
      failure to enumerate, open or parse aborts. Also gives the number of
      files read and what was logged. */
  method Load(resources: Resources) returns (r: Result<map<string, string>>, count: nat, log: seq<LogEntry>)
    ensures resources.Unavailable? ==> r == Err(IllegalState(resources.cause)) && log == []
    ensures resources.Found? ==>
              (r.Ok? <==> forall i :: 0 <= i < |resources.urls| ==> Readable(resources.urls[i]))
    ensures resources.Found? && r.Ok? ==>
              && r.value == Merge(AttributesOf(resources.urls))
              && count == |resources.urls|
              && log == CloseLogs(resources.urls)
    ensures resources.Found? && r.Err? ==>
              exists j :: && FirstUnreadable(resources.urls, j)
                          && r.error == IllegalState(FailureOf(resources.urls[j]))
                          && log == CloseLogs(resources.urls[..j + 1])
  {
    count, log := 0, [];
    if resources.Unavailable? {
      return Err(IllegalState(resources.cause)), count, log;
    }
    var urls := resources.urls;
    var props: map<string, string> := map[];
    while count < |urls|
      invariant count <= |urls|
      invariant forall i :: 0 <= i < count ==> Readable(urls[i])
      invariant props == Merge(AttributesOf(urls[..count]))
      invariant log == CloseLogs(urls[..count])
    {
      var one, closing := LoadOneFile(urls[count]);
      if one.Err? {
        assert FirstUnreadable(urls, count);
        assert urls[..count + 1][..count] == urls[..count];
        return one, count, log + closing;
      }
      assert one.value == Attributes(urls[count]);
      assert AttributesOf(urls[..count + 1]) == AttributesOf(urls[..count]) + [Attributes(urls[count])];
      assert urls[..count + 1][..count] == urls[..count];
      props := props + one.value;
      log := log + closing;
      count := count + 1;
    }
    assert urls[..count] == urls;
    r := Ok(props);
  }

  /** The property table, built once when the class is initialised and never
      changed afterwards. */
  class Manifests {
    const properties: map<string, string>

    constructor (props: map<string, string>)
      ensures properties == props
    {
      properties := props;
    }

    /** `read(name)`: the stored value, or an illegal-argument failure when no
        manifest defines the property. */
    function Read(name: string): (r: Result<string>)
      ensures r.Ok? <==> name in properties
      ensures r.Ok? ==> r.value == properties[name]
      ensures r.Err? ==> r.error == IllegalArgument(NotFound(name))
    {
      if name in properties then Ok(properties[name]) else Err(IllegalArgument(NotFound(name)))
    }
  }

  /** The singleton: loads every manifest, or fails as the loading does. */
  method Instance(resources: Resources) returns (r: Result<Manifests>)
    ensures resources.Unavailable? ==> r == Err(IllegalState(resources.cause))
    ensures resources.Found? ==>
              (r.Ok? <==> forall i :: 0 <= i < |resources.urls| ==> Readable(resources.urls[i]))
    ensures resources.Found? && r.Err? ==>
              exists j :: FirstUnreadable(resources.urls, j) && r.error == IllegalState(FailureOf(resources.urls[j]))
    ensures r.Ok? ==> fresh(r.value) && r.value.properties == Merge(AttributesOf(resources.urls))
  {
    var props, _, _ := Load(resources);
    match props {
      case Err(e) =>
        r := Err(e);
      case Ok(m) =>
        var instance := new Manifests(m);
        r := Ok(instance);
    }
  }

  /** Once the table is loaded, `read(name)` fails exactly when no manifest
      defines `name`, and otherwise gives the value of the last manifest that
      does. */
  lemma ReadAfterLoad(m: Manifests, urls: seq<ManifestUrl>, name: string, j: int)
    requires m.properties == Merge(AttributesOf(urls))
    requires 0 <= j < |urls| && name in Attributes(urls[j])
    requires forall i :: j < i < |urls| ==> name !in Attributes(urls[i])
    ensures m.Read(name) == Ok(Attributes(urls[j])[name])
  {
    var ms := AttributesOf(urls);
    assert name in ms[j];
    assert forall i :: j < i < |ms| ==> name !in ms[i];
    MergeLastWins(ms, j, name);
    assert name in m.properties && m.properties[name] == Attributes(urls[j])[name];
  }

  /** `read(name)` fails exactly when the name is in no manifest. */
  lemma ReadMissing(m: Manifests, urls: seq<ManifestUrl>, name: string)
    requires m.properties == Merge(AttributesOf(urls))
    ensures m.Read(name).Err? <==> forall i :: 0 <= i < |urls| ==> name !in Attributes(urls[i])
  {
    var ms := AttributesOf(urls);
    MergeKeys(ms, name);
    if exists i :: 0 <= i < |urls| && name in Attributes(urls[i]) {
      var i :| 0 <= i < |urls| && name in Attributes(urls[i]);
      assert name in ms[i];
    }
  }
}
