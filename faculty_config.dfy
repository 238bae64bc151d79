/** `faculty/config.py`: profiles read from an INI credentials file, and
    the precedence by which a profile is resolved from arguments, the
    environment and that file. The file system is the map `fs` from an
    existing file's path to its parsed contents; the environment is `env`;
    the user's home directory (what `~` expands to) is `home`. */
module FacultyConfig {
  import opened Wrappers
  import opened Strings
  import opened PosixPath
  import opened Truthiness

  /** The `Profile` named tuple; any field may be missing in a file. */
  datatype Profile = Profile(domain: Option<string>, protocol: Option<string>,
                             clientId: Option<string>, clientSecret: Option<string>)

  const EmptyProfile := Profile(None, None, None, None)

  const DefaultProfile := "default"
  const DefaultDomain := "services.cloud.my.faculty.ai"
  const DefaultProtocol := "https"

  /** A parsed INI file: its sections in file order, each section's options,
      and the options of its `[DEFAULT]` section, which every section
      inherits. */
  datatype IniFile = IniFile(sections: seq<string>, options: map<string, map<string, string>>,
                             defaults: map<string, string>)

  const EmptyIni := IniFile([], map[], map[])

  /** `ConfigParser.read(path)`: a file that does not exist is skipped. */
  function Read(fs: map<string, IniFile>, path: string): IniFile {
    if path in fs then fs[path] else EmptyIni
  }

  /** `_get(section, option)`: the section's own value, else the inherited
      default, else None. */
  function Get(f: IniFile, section: string, option: string): (r: Option<string>)
    ensures r.Some? <==> (section in f.options && option in f.options[section]) || option in f.defaults
  {
    if section in f.options && option in f.options[section] then Some(f.options[section][option])
    else if option in f.defaults then Some(f.defaults[option])
    else None
  }

  function SectionProfile(f: IniFile, section: string): Profile {
    Profile(Get(f, section, "domain"), Get(f, section, "protocol"),
            Get(f, section, "client_id"), Get(f, section, "client_secret"))
  }

  /** The profiles `load` returns: one per section, keyed by its name. */
  function Profiles(f: IniFile): map<string, Profile> {
    map s | s in f.sections :: SectionProfile(f, s)
  }

  /** `load(path)`: the loop over `parser.sections()` filling `profiles`. */
  method Load(fs: map<string, IniFile>, path: string) returns (profiles: map<string, Profile>)
    ensures profiles == Profiles(Read(fs, path))
    ensures profiles.Keys == set s | s in Read(fs, path).sections
  {
    var f := Read(fs, path);
    profiles := map[];
    var i := 0;
    while i < |f.sections|
      invariant 0 <= i <= |f.sections|
      invariant profiles == map s | s in f.sections[..i] :: SectionProfile(f, s)
    {
      var section := f.sections[i];
      assert f.sections[..i + 1] == f.sections[..i] + [section];
      profiles := profiles[section := SectionProfile(f, section)];
      i := i + 1;
    }
    assert f.sections[..i] == f.sections;
  }

  /** `load_profile(path, profile)`: the named section's profile, or a
      profile of Nones when there is no such section. */
  function LoadProfile(fs: map<string, IniFile>, path: string, profile: string): (r: Profile)
    ensures profile in Read(fs, path).sections ==> r == SectionProfile(Read(fs, path), profile)
    ensures profile !in Read(fs, path).sections ==> r == EmptyProfile
  {
    var profiles := Profiles(Read(fs, path));
    if profile in profiles then profiles[profile] else EmptyProfile
  }

  function Getenv(env: map<string, string>, key: string): Option<string> {
    if key in env then Some(env[key]) else None
  }

  /** `os.path.expanduser("~/.config")`, with trailing slashes of the home
      directory dropped as `expanduser` does. */
  function ConfigHome(env: map<string, string>, home: string): string {
    var xdg := Getenv(env, "XDG_CONFIG_HOME");
    if Truthy(xdg) then xdg.value else RStripChar(home, '/') + "/.config"
  }

  /** `_default_credentials_path()`: `<config home>/faculty/credentials`,
      unless only the legacy `<config home>/sherlockml/credentials` exists. */
  function DefaultCredentialsPath(env: map<string, string>, home: string, fs: map<string, IniFile>): (r: string)
    ensures var base := ConfigHome(env, home);
      var current := Join(base, "faculty") + "/credentials";
      var legacy := Join(base, "sherlockml") + "/credentials";
      && (current in fs ==> r == current)
      && (current !in fs && legacy in fs ==> r == legacy)
      && (current !in fs && legacy !in fs ==> r == current)
    ensures r != ""
  {
    var base := ConfigHome(env, home);
    var current := JoinAll(base, ["faculty", "credentials"]);
    var legacy := JoinAll(base, ["sherlockml", "credentials"]);
    JoinAllCredentials(base, "faculty");
    JoinAllCredentials(base, "sherlockml");
    if current !in fs && legacy in fs then legacy else current
  }

  /** Joining a directory name and `credentials` onto a base adds one `/`
      before `credentials`. */
  lemma JoinAllCredentials(base: string, dir: string)
    requires dir != "" && dir[0] != '/' && dir[|dir| - 1] != '/'
    ensures JoinAll(base, [dir, "credentials"]) == Join(base, dir) + "/credentials"
  {
    var a := Join(base, dir);
    assert !StartsWith(dir, "/");
    assert a[|a| - 1] == dir[|dir| - 1];
    EndsWithChar(a, '/');
    assert "credentials"[0] != '/';
    assert JoinAll(base, [dir, "credentials"]) == JoinAll(a, ["credentials"]) by {
      assert [dir, "credentials"][1..] == ["credentials"];
    }
    assert ["credentials"][1..] == [];
    assert JoinAll(a, ["credentials"]) == Join(a, "credentials");
  }

  /** `resolve_credentials_path(credentials_path)`. */
  function ResolveCredentialsPath(credentialsPath: Option<string>, env: map<string, string>, home: string,
                                  fs: map<string, IniFile>): (r: string)
    ensures var given := FirstTruthy([credentialsPath, Getenv(env, "FACULTY_CREDENTIALS_PATH"),
                                      Getenv(env, "SHERLOCKML_CREDENTIALS_PATH")]);
      r == if given.Some? then given.value else DefaultCredentialsPath(env, home, fs)
    ensures r != ""
  {
    var chain := [credentialsPath, Getenv(env, "FACULTY_CREDENTIALS_PATH"), Getenv(env, "SHERLOCKML_CREDENTIALS_PATH")];
    OrAllFirst(chain, Some(DefaultCredentialsPath(env, home, fs)));
    FirstTruthyIndex(chain);
    OrAll(chain, Some(DefaultCredentialsPath(env, home, fs))).value
  }

  /** The profile name `resolve_profile` reads. */
  function ResolveProfileName(profileName: Option<string>, env: map<string, string>): (r: string)
    ensures var given := FirstTruthy([profileName, Getenv(env, "FACULTY_PROFILE"), Getenv(env, "SHERLOCKML_PROFILE")]);
      r == if given.Some? then given.value else DefaultProfile
    ensures r != ""
  {
    var chain := [profileName, Getenv(env, "FACULTY_PROFILE"), Getenv(env, "SHERLOCKML_PROFILE")];
    OrAllFirst(chain, Some(DefaultProfile));
    FirstTruthyIndex(chain);
    OrAll(chain, Some(DefaultProfile)).value
  }

  /** The arguments of `resolve_profile`. */
  datatype Arguments = Arguments(credentialsPath: Option<string>, profileName: Option<string>,
                                 domain: Option<string>, protocol: Option<string>,
                                 clientId: Option<string>, clientSecret: Option<string>)

  /** The profile of the credentials file that `resolve_profile` consults. */
  function FileProfile(args: Arguments, env: map<string, string>, home: string, fs: map<string, IniFile>): Profile {
    LoadProfile(fs, ResolveCredentialsPath(args.credentialsPath, env, home, fs),
                ResolveProfileName(args.profileName, env))
  }

  /** The candidates for each field, in order of precedence. */
  function DomainSources(args: Arguments, env: map<string, string>, file: Profile): seq<Option<string>> {
    [args.domain, Getenv(env, "FACULTY_DOMAIN"), Getenv(env, "SHERLOCKML_DOMAIN"), file.domain]
  }
  function ProtocolSources(args: Arguments, env: map<string, string>, file: Profile): seq<Option<string>> {
    [args.protocol, Getenv(env, "FACULTY_PROTOCOL"), Getenv(env, "SHERLOCKML_PROTOCOL"), file.protocol]
  }
  function ClientIdSources(args: Arguments, env: map<string, string>, file: Profile): seq<Option<string>> {
    [args.clientId, Getenv(env, "FACULTY_CLIENT_ID"), Getenv(env, "SHERLOCKML_CLIENT_ID"), file.clientId]
  }
  function ClientSecretSources(args: Arguments, env: map<string, string>, file: Profile): seq<Option<string>> {
    [args.clientSecret, Getenv(env, "FACULTY_CLIENT_SECRET"), Getenv(env, "SHERLOCKML_CLIENT_SECRET"), file.clientSecret]
  }

  /** Every field of a resolved profile is a non-empty string. */
  predicate Resolved(p: Profile) {
    Truthy(p.domain) && Truthy(p.protocol) && Truthy(p.clientId) && Truthy(p.clientSecret)
  }

  /** `resolve_profile(...)`: the file's profile is loaded, then resolved
      against the arguments and the environment. */
  function ResolveProfile(args: Arguments, env: map<string, string>, home: string, fs: map<string, IniFile>)
    : Result<Profile, string>
  {
    Resolve(args, env, FileProfile(args, env, home, fs))
  }

  /** The field resolution of `resolve_profile` against the file's profile
      `file`: each field is the first truthy candidate; the domain and
      protocol then fall back to their defaults, and a missing client id or
      secret is a `CredentialsError` naming it. */
  function Resolve(args: Arguments, env: map<string, string>, file: Profile): (r: Result<Profile, string>)
    ensures var id := FirstTruthy(ClientIdSources(args, env, file));
      var secret := FirstTruthy(ClientSecretSources(args, env, file));
      && (id.None? ==> r == Err("No client_id found"))
      && (id.Some? && secret.None? ==> r == Err("No client_secret found"))
      && (r.Ok? <==> id.Some? && secret.Some?)
      && (r.Ok? ==> r.value == Profile(Some(FirstTruthy(DomainSources(args, env, file)).GetOr(DefaultDomain)),
                                       Some(FirstTruthy(ProtocolSources(args, env, file)).GetOr(DefaultProtocol)),
                                       id, secret))
    ensures r.Ok? ==> Resolved(r.value)
  {
    var domain := OrAll(DomainSources(args, env, file), Some(DefaultDomain));
    var protocol := OrAll(ProtocolSources(args, env, file), Some(DefaultProtocol));
    var clientId := OrAll(ClientIdSources(args, env, file), None);
    var clientSecret := OrAll(ClientSecretSources(args, env, file), None);
    OrAllFirst(DomainSources(args, env, file), Some(DefaultDomain));
    OrAllFirst(ProtocolSources(args, env, file), Some(DefaultProtocol));
    OrAllFirst(ClientIdSources(args, env, file), None);
    OrAllFirst(ClientSecretSources(args, env, file), None);
    FirstTruthyIndex(DomainSources(args, env, file));
    FirstTruthyIndex(ProtocolSources(args, env, file));
    FirstTruthyIndex(ClientIdSources(args, env, file));
    FirstTruthyIndex(ClientSecretSources(args, env, file));
    if clientId.None? then Err("No client_id found")
    else if clientSecret.None? then Err("No client_secret found")
    else Ok(Profile(domain, protocol, clientId, clientSecret))
  }

  // ---------------------------------------------------------------------------
  // Consequences of the precedence
  // ---------------------------------------------------------------------------

  /** An argument given to `resolve_profile` wins over everything else. */
  lemma ArgumentsWin(args: Arguments, env: map<string, string>, file: Profile)
    requires Truthy(args.clientId) && Truthy(args.clientSecret)
    ensures var r := Resolve(args, env, file);
      r.Ok? && r.value.clientId == args.clientId && r.value.clientSecret == args.clientSecret
      && (Truthy(args.domain) ==> r.value.domain == args.domain)
      && (Truthy(args.protocol) ==> r.value.protocol == args.protocol)
  {
  }

  /** With nothing given anywhere, the client id is reported missing. */
  lemma NothingGiven(home: string, fs: map<string, IniFile>)
    requires fs == map[]
    ensures ResolveProfile(Arguments(None, None, None, None, None, None), map[], home, fs) == Err("No client_id found")
  {
    var args := Arguments(None, None, None, None, None, None);
    var file := FileProfile(args, map[], home, fs);
    assert file == EmptyProfile;
    assert FirstTruthy(ClientIdSources(args, map[], file)) == None;
  }

  /** An empty string argument counts as no argument; the file consulted
      does not depend on the domain argument. */
  lemma EmptyArgumentIgnored(args: Arguments, env: map<string, string>, file: Profile)
    requires args.domain == Some("")
    ensures Resolve(args, env, file) == Resolve(args.(domain := None), env, file)
  {
    var xs := DomainSources(args, env, file);
    assert DomainSources(args.(domain := None), env, file) == xs[0 := None];
    EmptyIsNone(xs, 0, Some(DefaultDomain));
  }

  /** A profile that the file sets fully is used when nothing overrides it. */
  lemma FileProfileUsed(env: map<string, string>, p: Profile)
    requires Resolved(p)
    requires "FACULTY_DOMAIN" !in env && "SHERLOCKML_DOMAIN" !in env
    requires "FACULTY_PROTOCOL" !in env && "SHERLOCKML_PROTOCOL" !in env
    requires "FACULTY_CLIENT_ID" !in env && "SHERLOCKML_CLIENT_ID" !in env
    requires "FACULTY_CLIENT_SECRET" !in env && "SHERLOCKML_CLIENT_SECRET" !in env
    ensures Resolve(Arguments(None, None, None, None, None, None), env, p) == Ok(p)
  {
    var args := Arguments(None, None, None, None, None, None);
    OnlyLastTruthy(p.domain);
    OnlyLastTruthy(p.protocol);
    OnlyLastTruthy(p.clientId);
    OnlyLastTruthy(p.clientSecret);
    assert DomainSources(args, env, p) == [None, None, None, p.domain];
    assert ProtocolSources(args, env, p) == [None, None, None, p.protocol];
    assert ClientIdSources(args, env, p) == [None, None, None, p.clientId];
    assert ClientSecretSources(args, env, p) == [None, None, None, p.clientSecret];
  }

  lemma OnlyLastTruthy(d: Option<string>)
    requires Truthy(d)
    ensures FirstTruthy([None, None, None, d]) == d
  {
    var s1: seq<Option<string>> := [d];
    var s2: seq<Option<string>> := [None] + s1;
    var s3: seq<Option<string>> := [None] + s2;
    var s4: seq<Option<string>> := [None] + s3;
    assert FirstTruthy(s1) == d;
    assert s2[1..] == s1 && FirstTruthy(s2) == d;
    assert s3[1..] == s2 && FirstTruthy(s3) == d;
    assert s4[1..] == s3 && FirstTruthy(s4) == d;
    assert s4 == [None, None, None, d];
  }
}
