/** The marshmallow schemas of `faculty/clients/environment.py` that read and
    write an environment's specification: version fields that pass the
    literal `"latest"` through and validate every other identifier on load
    and on dump, package lists, and the keys that default when missing.
    A load is `None` where marshmallow raises a `ValidationError`; a dump is
    `None` where the `post_dump` validation raises. */
module EnvironmentSchemas {
  import opened Wrappers
  import opened Json
  import opened VersionFormats

  // ---------------------------------------------------------------------------
  // Lists
  // ---------------------------------------------------------------------------

  /** A `fields.List` load: every item, or nothing if one fails. */
  function LoadAll<T>(items: seq<Json>, load: Json -> Option<T>): (r: Option<seq<T>>)
    ensures r.Some? <==> forall i | 0 <= i < |items| :: load(items[i]).Some?
    ensures r.Some? ==> |r.value| == |items| && forall i | 0 <= i < |items| :: r.value[i] == load(items[i]).value
    decreases |items|
  {
    if |items| == 0 then Some([])
    else match (load(items[0]), LoadAll(items[1..], load))
      case (Some(x), Some(rest)) => Some([x] + rest)
      case (None, _) => None
      case (_, None) =>
        assert forall i | 1 <= i < |items| :: items[1..][i - 1] == items[i];
        None
  }

  /** A `fields.List` dump: every item, or nothing if one fails. */
  function DumpAll<T>(xs: seq<T>, dump: T -> Option<Json>): (r: Option<seq<Json>>)
    ensures r.Some? <==> forall i | 0 <= i < |xs| :: dump(xs[i]).Some?
    ensures r.Some? ==> |r.value| == |xs| && forall i | 0 <= i < |xs| :: r.value[i] == dump(xs[i]).value
    decreases |xs|
  {
    if |xs| == 0 then Some([])
    else match (dump(xs[0]), DumpAll(xs[1..], dump))
      case (Some(j), Some(rest)) => Some([j] + rest)
      case (None, _) => None
      case (_, None) =>
        assert forall i | 1 <= i < |xs| :: xs[1..][i - 1] == xs[i];
        None
  }

  /** A list dumped item by item loads back item by item. */
  lemma LoadDumpAll<T>(xs: seq<T>, load: Json -> Option<T>, dump: T -> Option<Json>)
    requires forall i | 0 <= i < |xs| :: dump(xs[i]).Some? ==> load(dump(xs[i]).value) == Some(xs[i])
    requires DumpAll(xs, dump).Some?
    ensures LoadAll(DumpAll(xs, dump).value, load) == Some(xs)
  {
    var js := DumpAll(xs, dump).value;
    assert forall i | 0 <= i < |js| :: load(js[i]) == Some(xs[i]);
    assert LoadAll(js, load).value == xs;
  }

  function LoadString(j: Json): Option<string> {
    if j.JString? then Some(j.s) else None
  }

  function DumpString(s: string): Option<Json> { Some(JString(s)) }

  /** `fields.List(fields.String())`. */
  function LoadStrings(j: Json): (r: Option<seq<string>>)
    ensures r.Some? <==> j.JArray? && forall i | 0 <= i < |j.items| :: j.items[i].JString?
  {
    if j.JArray? then LoadAll(j.items, LoadString) else None
  }

  function DumpStrings(xs: seq<string>): Json {
    JArray(DumpAll(xs, DumpString).value)
  }

  lemma StringsRoundTrip(xs: seq<string>)
    ensures LoadStrings(DumpStrings(xs)) == Some(xs)
  {
    LoadDumpAll(xs, LoadString, DumpString);
  }

  // ---------------------------------------------------------------------------
  // Versions
  // ---------------------------------------------------------------------------

  /** `Constraint`, by value. */
  datatype Constraint = AtLeast | Equal

  function ConstraintText(c: Constraint): string {
    match c
    case AtLeast => ">="
    case Equal => "=="
  }

  function ConstraintFromText(s: string): (r: Option<Constraint>)
    ensures r.Some? <==> s == ">=" || s == "=="
    ensures r.Some? ==> ConstraintText(r.value) == s
  {
    if s == ">=" then Some(AtLeast) else if s == "==" then Some(Equal) else None
  }

  datatype Version = Version(constraint: Constraint, identifier: string)

  /** What a version field holds: the literal `"latest"`, or a version. */
  datatype VersionSpec = Latest | Pinned(version: Version)

  /** Which identifier check a version schema applies. */
  datatype Format = PythonFormat | AptFormat

  predicate ValidIdentifier(f: Format, s: string) {
    match f
    case PythonFormat => ValidPythonVersion(s)
    case AptFormat => ValidAptVersion(s)
  }

  /** `_PythonVersionSchema().load` and `_AptVersionSchema().load`: both keys
      required, the constraint by value, and the identifier validated. */
  function LoadVersion(f: Format, j: Json): (r: Option<Version>)
    ensures r.Some? <==> j.JObject? && "constraint" in j.fields && "identifier" in j.fields
                         && j.fields["constraint"].JString? && j.fields["identifier"].JString?
                         && ConstraintFromText(j.fields["constraint"].s).Some?
                         && ValidIdentifier(f, j.fields["identifier"].s)
    ensures r.Some? ==> ConstraintText(r.value.constraint) == j.fields["constraint"].s
                        && r.value.identifier == j.fields["identifier"].s
  {
    if j.JObject? && "constraint" in j.fields && "identifier" in j.fields
       && j.fields["constraint"].JString? && j.fields["identifier"].JString?
    then
      match ConstraintFromText(j.fields["constraint"].s)
      case None => None
      case Some(c) =>
        if ValidIdentifier(f, j.fields["identifier"].s) then Some(Version(c, j.fields["identifier"].s)) else None
    else None
  }

  /** The dump of a version schema; its `post_dump` hook validates the
      identifier as the load does. */
  function DumpVersion(f: Format, v: Version): (r: Option<Json>)
    ensures r.Some? <==> ValidIdentifier(f, v.identifier)
  {
    if ValidIdentifier(f, v.identifier) then
      Some(JObject(map["constraint" := JString(ConstraintText(v.constraint)), "identifier" := JString(v.identifier)]))
    else None
  }

  lemma VersionRoundTrip(f: Format, v: Version)
    requires DumpVersion(f, v).Some?
    ensures LoadVersion(f, DumpVersion(f, v).value) == Some(v)
  {
    var m := map["constraint" := JString(ConstraintText(v.constraint)), "identifier" := JString(v.identifier)];
    assert DumpVersion(f, v).value == JObject(m);
    assert m["constraint"].s == ConstraintText(v.constraint) && m["identifier"].s == v.identifier;
    ConstraintRoundTrip(v.constraint);
  }

  lemma ConstraintRoundTrip(c: Constraint)
    ensures ConstraintFromText(ConstraintText(c)) == Some(c)
  {
    if c == AtLeast { assert ">=" != "=="; }
  }

  /** `_PythonVersionField._deserialize` and `_AptVersionField._deserialize`. */
  function LoadVersionField(f: Format, j: Json): (r: Option<VersionSpec>)
    ensures j == JString("latest") ==> r == Some(Latest)
    ensures j != JString("latest") ==> (r.Some? <==> LoadVersion(f, j).Some?)
    ensures j != JString("latest") && r.Some? ==> r.value == Pinned(LoadVersion(f, j).value)
  {
    if j == JString("latest") then Some(Latest)
    else match LoadVersion(f, j)
      case None => None
      case Some(v) => Some(Pinned(v))
  }

  /** `_PythonVersionField._serialize` and `_AptVersionField._serialize`. */
  function DumpVersionField(f: Format, spec: VersionSpec): (r: Option<Json>)
    ensures spec == Latest ==> r == Some(JString("latest"))
    ensures spec.Pinned? ==> r == DumpVersion(f, spec.version)
  {
    match spec
    case Latest => Some(JString("latest"))
    case Pinned(v) => DumpVersion(f, v)
  }

  /** A version field dumps exactly when it is `"latest"` or holds a valid
      identifier, and what it dumps loads back as itself. */
  lemma VersionFieldRoundTrip(f: Format, spec: VersionSpec)
    ensures DumpVersionField(f, spec).Some? <==> spec == Latest || ValidIdentifier(f, spec.version.identifier)
    ensures DumpVersionField(f, spec).Some? ==> LoadVersionField(f, DumpVersionField(f, spec).value) == Some(spec)
  {
    if spec.Pinned? && DumpVersionField(f, spec).Some? {
      VersionRoundTrip(f, spec.version);
    }
  }

  /** The identifiers of `"latest"` and `"1.0.0"` pass, on both formats and
      in both directions; `invalid-identifier` and `"    "` do not. */
  lemma VersionFieldExamples()
    ensures LoadVersionField(PythonFormat, JString("latest")) == Some(Latest)
    ensures LoadVersionField(AptFormat, JString("latest")) == Some(Latest)
    ensures DumpVersionField(PythonFormat, Latest) == Some(JString("latest"))
    ensures DumpVersionField(PythonFormat, Pinned(Version(Equal, "1.0.0"))).Some?
    ensures DumpVersionField(PythonFormat, Pinned(Version(Equal, "invalid-identifier"))).None?
    ensures DumpVersionField(AptFormat, Pinned(Version(Equal, "1.0.0"))).Some?
    ensures DumpVersionField(AptFormat, Pinned(Version(Equal, "    "))).None?
  {
    PlainVersionValid();
    WordVersionInvalid();
    AptVersionExamples();
  }

  // ---------------------------------------------------------------------------
  // Packages
  // ---------------------------------------------------------------------------

  /** `PythonPackage` and `AptPackage`. */
  datatype Package = Package(name: string, version: VersionSpec)

  function LoadPackage(f: Format, j: Json): (r: Option<Package>)
    ensures r.Some? <==> j.JObject? && "name" in j.fields && j.fields["name"].JString?
                         && "version" in j.fields && LoadVersionField(f, j.fields["version"]).Some?
  {
    if j.JObject? && "name" in j.fields && j.fields["name"].JString? && "version" in j.fields then
      match LoadVersionField(f, j.fields["version"])
      case None => None
      case Some(v) => Some(Package(j.fields["name"].s, v))
    else None
  }

  function DumpPackage(f: Format, p: Package): (r: Option<Json>)
    ensures r.Some? <==> DumpVersionField(f, p.version).Some?
  {
    match DumpVersionField(f, p.version)
    case None => None
    case Some(v) => Some(JObject(map["name" := JString(p.name), "version" := v]))
  }

  lemma PackageRoundTrip(f: Format, p: Package)
    requires DumpPackage(f, p).Some?
    ensures LoadPackage(f, DumpPackage(f, p).value) == Some(p)
  {
    VersionFieldRoundTrip(f, p.version);
  }

  function LoadPythonPackage(j: Json): Option<Package> { LoadPackage(PythonFormat, j) }

  function DumpPythonPackage(p: Package): Option<Json> { DumpPackage(PythonFormat, p) }

  function LoadAptPackage(j: Json): Option<Package> { LoadPackage(AptFormat, j) }

  function DumpAptPackage(p: Package): Option<Json> { DumpPackage(AptFormat, p) }

  /** A required list of packages. */
  function LoadPackages(f: Format, j: Json): Option<seq<Package>> {
    if !j.JArray? then None
    else match f
      case PythonFormat => LoadAll(j.items, LoadPythonPackage)
      case AptFormat => LoadAll(j.items, LoadAptPackage)
  }

  function DumpPackages(f: Format, ps: seq<Package>): Option<Json> {
    var items := match f
      case PythonFormat => DumpAll(ps, DumpPythonPackage)
      case AptFormat => DumpAll(ps, DumpAptPackage);
    if items.Some? then Some(JArray(items.value)) else None
  }

  lemma PackagesRoundTrip(f: Format, ps: seq<Package>)
    requires DumpPackages(f, ps).Some?
    ensures LoadPackages(f, DumpPackages(f, ps).value) == Some(ps)
  {
    forall i | 0 <= i < |ps| && DumpPackage(f, ps[i]).Some?
      ensures LoadPackage(f, DumpPackage(f, ps[i]).value) == Some(ps[i])
    {
      PackageRoundTrip(f, ps[i]);
    }
    match f
    case PythonFormat => LoadDumpAll(ps, LoadPythonPackage, DumpPythonPackage);
    case AptFormat => LoadDumpAll(ps, LoadAptPackage, DumpAptPackage);
  }

  /** Every package dumps exactly when every pinned identifier is valid. */
  predicate PackagesValid(f: Format, ps: seq<Package>) {
    forall i | 0 <= i < |ps| :: ps[i].version.Pinned? ==> ValidIdentifier(f, ps[i].version.version.identifier)
  }

  lemma PackagesDump(f: Format, ps: seq<Package>)
    ensures DumpPackages(f, ps).Some? <==> PackagesValid(f, ps)
  {
    forall i | 0 <= i < |ps| {
      VersionFieldRoundTrip(f, ps[i].version);
    }
  }

  // ---------------------------------------------------------------------------
  // Specifications
  // ---------------------------------------------------------------------------

  datatype Pip = Pip(extraIndexUrls: seq<string>, packages: seq<Package>)

  datatype Conda = Conda(channels: seq<string>, packages: seq<Package>)

  datatype PythonEnvironment = PythonEnvironment(pip: Pip, conda: Conda)

  datatype PythonSpecification = PythonSpecification(python2: Option<PythonEnvironment>, python3: Option<PythonEnvironment>)

  datatype Specification = Specification(aptPackages: seq<Package>, bash: seq<string>, python: PythonSpecification)

  /** A list of strings that defaults to the empty list when its key is
      missing. */
  function LoadStringsOrEmpty(fields: map<string, Json>, key: string): (r: Option<seq<string>>)
    ensures key !in fields ==> r == Some([])
    ensures key in fields ==> r == LoadStrings(fields[key])
  {
    if key in fields then LoadStrings(fields[key]) else Some([])
  }

  /** `_PipSchema().load`: `extraIndexUrls` defaults to `[]`. */
  function LoadPip(j: Json): (r: Option<Pip>)
    ensures r.Some? ==> j.JObject? && "packages" in j.fields
    ensures j.JObject? && "extraIndexUrls" !in j.fields && r.Some? ==> r.value.extraIndexUrls == []
  {
    if j.JObject? && "packages" in j.fields then
      match (LoadStringsOrEmpty(j.fields, "extraIndexUrls"), LoadPackages(PythonFormat, j.fields["packages"]))
      case (Some(urls), Some(ps)) => Some(Pip(urls, ps))
      case _ => None
    else None
  }

  function DumpPip(p: Pip): Option<Json> {
    match DumpPackages(PythonFormat, p.packages)
    case None => None
    case Some(ps) => Some(JObject(map["extraIndexUrls" := DumpStrings(p.extraIndexUrls), "packages" := ps]))
  }

  /** `_CondaSchema().load`: `channels` defaults to `[]`. */
  function LoadConda(j: Json): (r: Option<Conda>)
    ensures r.Some? ==> j.JObject? && "packages" in j.fields
    ensures j.JObject? && "channels" !in j.fields && r.Some? ==> r.value.channels == []
  {
    if j.JObject? && "packages" in j.fields then
      match (LoadStringsOrEmpty(j.fields, "channels"), LoadPackages(PythonFormat, j.fields["packages"]))
      case (Some(channels), Some(ps)) => Some(Conda(channels, ps))
      case _ => None
    else None
  }

  function DumpConda(c: Conda): Option<Json> {
    match DumpPackages(PythonFormat, c.packages)
    case None => None
    case Some(ps) => Some(JObject(map["channels" := DumpStrings(c.channels), "packages" := ps]))
  }

  lemma PipRoundTrip(p: Pip)
    requires DumpPip(p).Some?
    ensures LoadPip(DumpPip(p).value) == Some(p)
  {
    StringsRoundTrip(p.extraIndexUrls);
    PackagesRoundTrip(PythonFormat, p.packages);
  }

  lemma CondaRoundTrip(c: Conda)
    requires DumpConda(c).Some?
    ensures LoadConda(DumpConda(c).value) == Some(c)
  {
    StringsRoundTrip(c.channels);
    PackagesRoundTrip(PythonFormat, c.packages);
  }

  /** Without the optional lists, pip and conda sections load with empty
      ones. */
  lemma MissingListsDefault(ps: Json)
    requires LoadPackages(PythonFormat, ps).Some?
    ensures LoadPip(JObject(map["packages" := ps])) == Some(Pip([], LoadPackages(PythonFormat, ps).value))
    ensures LoadConda(JObject(map["packages" := ps])) == Some(Conda([], LoadPackages(PythonFormat, ps).value))
  {
  }

  /** `_PythonEnvironmentSchema().load`: both sections required. */
  function LoadPythonEnvironment(j: Json): (r: Option<PythonEnvironment>)
    ensures r.Some? <==> j.JObject? && "pip" in j.fields && "conda" in j.fields
                         && LoadPip(j.fields["pip"]).Some? && LoadConda(j.fields["conda"]).Some?
  {
    if j.JObject? && "pip" in j.fields && "conda" in j.fields then
      match (LoadPip(j.fields["pip"]), LoadConda(j.fields["conda"]))
      case (Some(pip), Some(conda)) => Some(PythonEnvironment(pip, conda))
      case _ => None
    else None
  }

  function DumpPythonEnvironment(e: PythonEnvironment): Option<Json> {
    match (DumpPip(e.pip), DumpConda(e.conda))
    case (Some(pip), Some(conda)) => Some(JObject(map["pip" := pip, "conda" := conda]))
    case _ => None
  }

  lemma PythonEnvironmentRoundTrip(e: PythonEnvironment)
    requires DumpPythonEnvironment(e).Some?
    ensures LoadPythonEnvironment(DumpPythonEnvironment(e).value) == Some(e)
  {
    var pip, conda := DumpPip(e.pip).value, DumpConda(e.conda).value;
    var m := map["pip" := pip, "conda" := conda];
    assert DumpPythonEnvironment(e) == Some(JObject(m));
    assert m["pip"] == pip && m["conda"] == conda;
    PipRoundTrip(e.pip);
    CondaRoundTrip(e.conda);
  }

  /** A `Python2`/`Python3` entry: missing or `null` is `None`. */
  function LoadOptionalEnvironment(fields: map<string, Json>, key: string): (r: Option<Option<PythonEnvironment>>)
    ensures key !in fields || fields[key] == JNull ==> r == Some(None)
  {
    if key !in fields || fields[key] == JNull then Some(None)
    else match LoadPythonEnvironment(fields[key])
      case None => None
      case Some(e) => Some(Some(e))
  }

  function DumpOptionalEnvironment(e: Option<PythonEnvironment>): Option<Json> {
    if e.None? then Some(JNull) else DumpPythonEnvironment(e.value)
  }

  /** `_PythonSpecificationSchema().load`. */
  function LoadPythonSpecification(j: Json): (r: Option<PythonSpecification>)
    ensures j == JObject(map[]) ==> r == Some(PythonSpecification(None, None))
    ensures r.Some? ==> j.JObject?
  {
    if !j.JObject? then None
    else match (LoadOptionalEnvironment(j.fields, "Python2"), LoadOptionalEnvironment(j.fields, "Python3"))
      case (Some(p2), Some(p3)) => Some(PythonSpecification(p2, p3))
      case _ => None
  }

  function DumpPythonSpecification(p: PythonSpecification): Option<Json> {
    match (DumpOptionalEnvironment(p.python2), DumpOptionalEnvironment(p.python3))
    case (Some(p2), Some(p3)) => Some(JObject(map["Python2" := p2, "Python3" := p3]))
    case _ => None
  }

  lemma PythonSpecificationRoundTrip(p: PythonSpecification)
    requires DumpPythonSpecification(p).Some?
    ensures LoadPythonSpecification(DumpPythonSpecification(p).value) == Some(p)
  {
    var p2, p3 := DumpOptionalEnvironment(p.python2).value, DumpOptionalEnvironment(p.python3).value;
    var m := map["Python2" := p2, "Python3" := p3];
    assert DumpPythonSpecification(p) == Some(JObject(m));
    assert m["Python2"] == p2 && m["Python3"] == p3;
    OptionalEnvironmentRoundTrip(m, "Python2", p.python2);
    OptionalEnvironmentRoundTrip(m, "Python3", p.python3);
  }

  lemma OptionalEnvironmentRoundTrip(m: map<string, Json>, key: string, e: Option<PythonEnvironment>)
    requires DumpOptionalEnvironment(e).Some? && key in m && m[key] == DumpOptionalEnvironment(e).value
    ensures LoadOptionalEnvironment(m, key) == Some(e)
  {
    if e.Some? {
      PythonEnvironmentRoundTrip(e.value);
      assert DumpPythonEnvironment(e.value).value.JObject?;
    }
  }

  /** Only one of the two Python versions present: the other is `None`. */
  lemma MissingPythonDefaults(e: Json)
    requires LoadPythonEnvironment(e).Some?
    ensures LoadPythonSpecification(JObject(map["Python3" := e])) == Some(PythonSpecification(None, LoadPythonEnvironment(e)))
    ensures LoadPythonSpecification(JObject(map["Python2" := e])) == Some(PythonSpecification(LoadPythonEnvironment(e), None))
  {
    assert e != JNull;
  }

  /** `_ScriptSchema().load`. */
  function LoadScript(j: Json): Option<string> {
    if j.JObject? && "script" in j.fields && j.fields["script"].JString? then Some(j.fields["script"].s) else None
  }

  function DumpScript(s: string): Option<Json> { Some(JObject(map["script" := JString(s)])) }

  /** `_SpecificationSchema().load`: `apt`, `bash` and `python` required. */
  function LoadSpecification(j: Json): (r: Option<Specification>)
    ensures r.Some? ==> j.JObject? && "apt" in j.fields && "bash" in j.fields && "python" in j.fields
  {
    if j.JObject? && "apt" in j.fields && "bash" in j.fields && "python" in j.fields
       && j.fields["apt"].JObject? && "packages" in j.fields["apt"].fields && j.fields["bash"].JArray?
    then
      match (LoadPackages(AptFormat, j.fields["apt"].fields["packages"]), LoadAll(j.fields["bash"].items, LoadScript),
             LoadPythonSpecification(j.fields["python"]))
      case (Some(apt), Some(bash), Some(python)) => Some(Specification(apt, bash, python))
      case _ => None
    else None
  }

  function DumpSpecification(s: Specification): Option<Json> {
    match (DumpPackages(AptFormat, s.aptPackages), DumpPythonSpecification(s.python))
    case (Some(apt), Some(python)) =>
      Some(JObject(map["apt" := JObject(map["packages" := apt]),
                       "bash" := JArray(DumpAll(s.bash, DumpScript).value),
                       "python" := python]))
    case _ => None
  }

  /** A specification that dumps loads back as itself. */
  lemma SpecificationRoundTrip(s: Specification)
    requires DumpSpecification(s).Some?
    ensures LoadSpecification(DumpSpecification(s).value) == Some(s)
  {
    var apt, python := DumpPackages(AptFormat, s.aptPackages).value, DumpPythonSpecification(s.python).value;
    var bash := JArray(DumpAll(s.bash, DumpScript).value);
    var m := map["apt" := JObject(map["packages" := apt]), "bash" := bash, "python" := python];
    assert DumpSpecification(s) == Some(JObject(m));
    assert m["apt"] == JObject(map["packages" := apt]) && m["bash"] == bash && m["python"] == python;
    PackagesRoundTrip(AptFormat, s.aptPackages);
    PythonSpecificationRoundTrip(s.python);
    LoadDumpAll(s.bash, LoadScript, DumpScript);
  }
}
