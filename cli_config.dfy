/** `faculty/cli/config.py`: the command line's profile, resolved once and
    kept in the module-level `_PROFILE_CACHE`, and the service URLs built
    from it. The cache is modelled as an object with one field. */
module CliConfig {
  import opened Wrappers
  import opened Truthiness
  import opened FacultyConfig
  import Urls

  /** `_profile_name_from_faculty_env()`. */
  function ProfileNameFromFacultyEnv(env: map<string, string>): Option<string> {
    Or(Getenv(env, "FACULTY_ENV"), Getenv(env, "SHERLOCKML_ENV"))
  }

  /** The profile name `get_profile` passes on: `FACULTY_PROFILE`, then
      `SHERLOCKML_PROFILE`, then the deprecated `FACULTY_ENV`/`SHERLOCKML_ENV`. */
  function CliProfileName(env: map<string, string>): (r: Option<string>)
    ensures var chosen := FirstTruthy([Getenv(env, "FACULTY_PROFILE"), Getenv(env, "SHERLOCKML_PROFILE"),
                                       Getenv(env, "FACULTY_ENV")]);
      r == if chosen.Some? then chosen else Getenv(env, "SHERLOCKML_ENV")
  {
    var chain := [Getenv(env, "FACULTY_PROFILE"), Getenv(env, "SHERLOCKML_PROFILE"), Getenv(env, "FACULTY_ENV")];
    var env1 := [Getenv(env, "FACULTY_ENV")];
    OrAllFirst(chain, Getenv(env, "SHERLOCKML_ENV"));
    assert chain == chain[..2] + env1;
    OrAllAppend(chain[..2], env1, Getenv(env, "SHERLOCKML_ENV"));
    assert env1[1..] == [];
    assert OrAll(env1, Getenv(env, "SHERLOCKML_ENV")) == ProfileNameFromFacultyEnv(env);
    OrAll(chain[..2], ProfileNameFromFacultyEnv(env))
  }

  /** What `get_profile` resolves on a miss. */
  function CliResolve(env: map<string, string>, home: string, fs: map<string, IniFile>): Result<Profile, string> {
    ResolveProfile(Arguments(None, CliProfileName(env), None, None, None, None), env, home, fs)
  }

  class ProfileCache {
    /** `_PROFILE_CACHE`. */
    var cached: Option<Profile>

    /** A cached profile is a resolved one. */
    predicate Valid()
      reads this
    {
      cached.Some? ==> Resolved(cached.value)
    }

    constructor ()
      ensures Valid() && cached == None
    {
      cached := None;
    }

    /** `get_profile()`: resolve on the first call, return the cached profile
        afterwards. A `CredentialsError` leaves the cache empty. */
    method GetProfile(env: map<string, string>, home: string, fs: map<string, IniFile>) returns (r: Result<Profile, string>)
      requires Valid()
      modifies this
      ensures Valid()
      ensures old(cached).Some? ==> r == Ok(old(cached).value) && cached == old(cached)
      ensures old(cached).None? ==>
                r == CliResolve(env, home, fs) && cached == (if r.Ok? then Some(r.value) else None)
      ensures r.Ok? ==> Resolved(r.value)
    {
      if cached.None? {
        r := CliResolve(env, home, fs);
        if r.Ok? {
          cached := Some(r.value);
        }
      } else {
        r := Ok(cached.value);
      }
    }

    /** `_url_for_service(service)`. */
    method UrlFor(service: string, env: map<string, string>, home: string, fs: map<string, IniFile>)
      returns (r: Result<string, string>)
      requires Valid()
      modifies this
      ensures Valid()
      ensures old(cached).Some? ==>
                cached == old(cached)
                && r == Ok(Urls.UrlForService(old(cached).value.protocol.value, old(cached).value.domain.value, service))
      ensures old(cached).None? ==> r.Ok? == CliResolve(env, home, fs).Ok?
      ensures r.Ok? ==> cached.Some? && r.value == Urls.UrlForService(cached.value.protocol.value, cached.value.domain.value, service)
    {
      var profile :- GetProfile(env, home, fs);
      r := Ok(Urls.UrlForService(profile.protocol.value, profile.domain.value, service));
    }

    /** `casebook_url()`, `hudson_url()`, `galleon_url()`, `baskerville_url()`. */
    method CasebookUrl(env: map<string, string>, home: string, fs: map<string, IniFile>) returns (r: Result<string, string>)
      requires Valid()
      modifies this
      ensures Valid()
      ensures r.Ok? ==> cached.Some? && r.value == Urls.UrlForService(cached.value.protocol.value, cached.value.domain.value, "casebook")
      ensures old(cached).Some? ==> r.Ok? && cached == old(cached)
    {
      r := UrlFor("casebook", env, home, fs);
    }

    method HudsonUrl(env: map<string, string>, home: string, fs: map<string, IniFile>) returns (r: Result<string, string>)
      requires Valid()
      modifies this
      ensures Valid()
      ensures r.Ok? ==> cached.Some? && r.value == Urls.UrlForService(cached.value.protocol.value, cached.value.domain.value, "hudson")
      ensures old(cached).Some? ==> r.Ok? && cached == old(cached)
    {
      r := UrlFor("hudson", env, home, fs);
    }

    method GalleonUrl(env: map<string, string>, home: string, fs: map<string, IniFile>) returns (r: Result<string, string>)
      requires Valid()
      modifies this
      ensures Valid()
      ensures r.Ok? ==> cached.Some? && r.value == Urls.UrlForService(cached.value.protocol.value, cached.value.domain.value, "galleon")
      ensures old(cached).Some? ==> r.Ok? && cached == old(cached)
    {
      r := UrlFor("galleon", env, home, fs);
    }

    method BaskervilleUrl(env: map<string, string>, home: string, fs: map<string, IniFile>) returns (r: Result<string, string>)
      requires Valid()
      modifies this
      ensures Valid()
      ensures r.Ok? ==> cached.Some? && r.value == Urls.UrlForService(cached.value.protocol.value, cached.value.domain.value, "baskerville")
      ensures old(cached).Some? ==> r.Ok? && cached == old(cached)
    {
      r := UrlFor("baskerville", env, home, fs);
    }
  }

  /** Two calls of `get_profile` return the same profile even when the
      environment changed in between. */
  method GetProfileTwice(cache: ProfileCache, env1: map<string, string>, env2: map<string, string>,
                         home: string, fs: map<string, IniFile>)
    returns (first: Result<Profile, string>, second: Result<Profile, string>)
    requires cache.Valid()
    modifies cache
    ensures first.Ok? ==> second == first
  {
    first := cache.GetProfile(env1, home, fs);
    second := cache.GetProfile(env2, home, fs);
  }
}
