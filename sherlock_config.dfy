/** `sherlockml/config.py`: the older configuration precedence, with only
    `SHERLOCKML_*` environment variables. Its `load` and `load_profile` are
    the same code as faculty's and are modelled by `FacultyConfig.Load` and
    `FacultyConfig.LoadProfile`. */
module SherlockConfig {
  import opened Wrappers
  import opened PosixPath
  import opened Truthiness
  import opened FacultyConfig

  const SherlockDefaultDomain := "services.sherlockml.com"

  /** `default_credentials_path()`: always `<config home>/sherlockml/credentials`. */
  function SherlockCredentialsPath(env: map<string, string>, home: string): (r: string)
    ensures r == Join(ConfigHome(env, home), "sherlockml") + "/credentials"
  {
    JoinAllCredentials(ConfigHome(env, home), "sherlockml");
    JoinAll(ConfigHome(env, home), ["sherlockml", "credentials"])
  }

  /** The credentials file and profile name `resolve_profile` reads:
      argument, then environment variable, then default. */
  function SherlockFileProfile(args: Arguments, env: map<string, string>, home: string, fs: map<string, IniFile>)
    : (r: Profile)
    ensures var path := FirstTruthy([args.credentialsPath, Getenv(env, "SHERLOCKML_CREDENTIALS_PATH")]);
      var name := FirstTruthy([args.profileName, Getenv(env, "SHERLOCKML_PROFILE")]);
      r == LoadProfile(fs, if path.Some? then path.value else SherlockCredentialsPath(env, home),
                       if name.Some? then name.value else DefaultProfile)
  {
    var paths := [args.credentialsPath, Getenv(env, "SHERLOCKML_CREDENTIALS_PATH")];
    var names := [args.profileName, Getenv(env, "SHERLOCKML_PROFILE")];
    OrAllFirst(paths, Some(SherlockCredentialsPath(env, home)));
    OrAllFirst(names, Some(DefaultProfile));
    LoadProfile(fs, OrAll(paths, Some(SherlockCredentialsPath(env, home))).value,
                OrAll(names, Some(DefaultProfile)).value)
  }

  function Sources(arg: Option<string>, env: map<string, string>, variable: string, file: Option<string>)
    : seq<Option<string>>
  {
    [arg, Getenv(env, variable), file]
  }

  /** `resolve_profile(...)`: the file's profile is loaded, then resolved. */
  function SherlockResolveProfile(args: Arguments, env: map<string, string>, home: string,
                                  fs: map<string, IniFile>): Result<Profile, string>
  {
    SherlockResolve(args, env, SherlockFileProfile(args, env, home, fs))
  }

  /** Each field is the first truthy of argument, `SHERLOCKML_*` variable and
      file value; domain and protocol fall back to defaults, and a missing
      client id or secret is a `CredentialsError`. */
  function SherlockResolve(args: Arguments, env: map<string, string>, file: Profile): (r: Result<Profile, string>)
    ensures var id := FirstTruthy(Sources(args.clientId, env, "SHERLOCKML_CLIENT_ID", file.clientId));
      var secret := FirstTruthy(Sources(args.clientSecret, env, "SHERLOCKML_CLIENT_SECRET", file.clientSecret));
      && (id.None? ==> r == Err("No client_id found"))
      && (id.Some? && secret.None? ==> r == Err("No client_secret found"))
      && (r.Ok? <==> id.Some? && secret.Some?)
      && (r.Ok? ==> r.value == Profile(
            Some(FirstTruthy(Sources(args.domain, env, "SHERLOCKML_DOMAIN", file.domain)).GetOr(SherlockDefaultDomain)),
            Some(FirstTruthy(Sources(args.protocol, env, "SHERLOCKML_PROTOCOL", file.protocol)).GetOr(DefaultProtocol)),
            id, secret))
    ensures r.Ok? ==> Resolved(r.value)
  {
    var domains := Sources(args.domain, env, "SHERLOCKML_DOMAIN", file.domain);
    var protocols := Sources(args.protocol, env, "SHERLOCKML_PROTOCOL", file.protocol);
    var ids := Sources(args.clientId, env, "SHERLOCKML_CLIENT_ID", file.clientId);
    var secrets := Sources(args.clientSecret, env, "SHERLOCKML_CLIENT_SECRET", file.clientSecret);
    OrAllFirst(domains, Some(SherlockDefaultDomain));
    OrAllFirst(protocols, Some(DefaultProtocol));
    OrAllFirst(ids, None);
    OrAllFirst(secrets, None);
    FirstTruthyIndex(domains);
    FirstTruthyIndex(protocols);
    FirstTruthyIndex(ids);
    FirstTruthyIndex(secrets);
    var clientId := OrAll(ids, None);
    var clientSecret := OrAll(secrets, None);
    if clientId.None? then Err("No client_id found")
    else if clientSecret.None? then Err("No client_secret found")
    else Ok(Profile(OrAll(domains, Some(SherlockDefaultDomain)), OrAll(protocols, Some(DefaultProtocol)),
                    clientId, clientSecret))
  }

  /** The `FACULTY_*` variables play no part in the sherlockml precedence. */
  lemma FacultyVariablesIgnored(args: Arguments, env: map<string, string>, file: Profile, key: string, value: string)
    requires key in {"FACULTY_DOMAIN", "FACULTY_PROTOCOL", "FACULTY_CLIENT_ID", "FACULTY_CLIENT_SECRET"}
    ensures SherlockResolve(args, env[key := value], file) == SherlockResolve(args, env, file)
  {
    var env2 := env[key := value];
    assert Getenv(env2, "SHERLOCKML_DOMAIN") == Getenv(env, "SHERLOCKML_DOMAIN");
    assert Getenv(env2, "SHERLOCKML_PROTOCOL") == Getenv(env, "SHERLOCKML_PROTOCOL");
    assert Getenv(env2, "SHERLOCKML_CLIENT_ID") == Getenv(env, "SHERLOCKML_CLIENT_ID");
    assert Getenv(env2, "SHERLOCKML_CLIENT_SECRET") == Getenv(env, "SHERLOCKML_CLIENT_SECRET");
  }
}
