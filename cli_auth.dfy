/** `faculty/cli/auth.py`: the command line's own token cache file, keyed by
    domain and client id, the session with the authentication service
    (Hudson) that fills it, and the module-level session. Hudson is the
    function `hudson` from a request to its response; `repr` is Python's
    `str` of a JSON array or object. */
module CliAuth {
  import opened Wrappers
  import opened Strings
  import opened PosixPath
  import opened Truthiness
  import opened Json
  import opened FacultyConfig
  import opened AccessTokens
  import opened Sessions
  import opened Http
  import opened CliConfig
  import Urls
  import CliParse

  /** `AuthenticationError`, and any other exception that propagates. */
  datatype CliError = AuthenticationError(message: string) | OtherError(message: string)

  /** `_token_cache_path()`: `faculty/token-cache.json` under `XDG_CACHE_DIR`,
      or under `~/.cache` when that is unset or empty. */
  function TokenCachePath(env: map<string, string>, home: string): (r: string)
    ensures var xdg := Getenv(env, "XDG_CACHE_DIR");
      var base := if Truthy(xdg) then xdg.value else RStripChar(home, '/') + "/.cache";
      r == Join(base, "faculty") + "/token-cache.json"
  {
    var xdg := Getenv(env, "XDG_CACHE_DIR");
    var base := if Truthy(xdg) then xdg.value else RStripChar(home, '/') + "/.cache";
    TokenCacheUnder(base);
    JoinAll(base, ["faculty", "token-cache.json"])
  }

  /** The command line reads `XDG_CACHE_DIR` where the library reads
      `XDG_CACHE_HOME`: with neither set both caches use the same file, and
      setting only `XDG_CACHE_HOME` moves the library's file alone. */
  lemma CachePathsShared(env: map<string, string>, home: string, dir: string)
    requires !Truthy(Getenv(env, "XDG_CACHE_DIR")) && !Truthy(Getenv(env, "XDG_CACHE_HOME"))
    ensures TokenCachePath(env, home) == DefaultTokenCachePath(env, home)
    ensures TokenCachePath(env["XDG_CACHE_HOME" := dir], home) == TokenCachePath(env, home)
  {
    assert Getenv(env["XDG_CACHE_HOME" := dir], "XDG_CACHE_DIR") == Getenv(env, "XDG_CACHE_DIR");
  }

  /** A cache entry: the token and its expiry, which may be `null`. */
  datatype CliEntry = CliEntry(token: string, expiresAt: Option<int>)

  /** `_store`: domain to client id to entry. */
  type CliStore = map<string, map<string, CliEntry>>

  /** The cache file: a JSON store, or anything `json.load` rejects. */
  datatype CliCacheFile = Entries(store: CliStore) | NotJson

  /** `load()`: any failure, a missing file included, gives `{}`. */
  function CliLoad(files: map<string, CliCacheFile>, path: string): (r: CliStore)
    ensures path in files && files[path].Entries? ==> r == files[path].store
    ensures path !in files || files[path].NotJson? ==> r == map[]
  {
    if path in files && files[path].Entries? then files[path].store else map[]
  }

  /** `get(domain, client_id)`: the token of an entry whose expiry is set
      and not passed. */
  function CliGet(store: CliStore, domain: string, clientId: string, now: int): (r: Option<string>)
    ensures r.Some? <==> domain in store && clientId in store[domain]
                         && store[domain][clientId].expiresAt.Some? && store[domain][clientId].expiresAt.value >= now
    ensures r.Some? ==> r.value == store[domain][clientId].token
  {
    if domain in store && clientId in store[domain] then
      var e := store[domain][clientId];
      if e.expiresAt.None? || e.expiresAt.value < now then None else Some(e.token)
    else None
  }

  /** `add(domain, client_id, token, expires_at)` on a store value. */
  function CliAdd(store: CliStore, domain: string, clientId: string, e: CliEntry): (r: CliStore)
    ensures r.Keys == store.Keys + {domain}
    ensures clientId in r[domain] && r[domain][clientId] == e
    ensures forall d :: d in store && d != domain ==> r[d] == store[d]
    ensures forall c :: c in r[domain] && c != clientId ==> domain in store && c in store[domain] && r[domain][c] == store[domain][c]
    ensures domain in store ==> r[domain].Keys == store[domain].Keys + {clientId}
  {
    var inner := if domain in store then store[domain] else map[];
    store[domain := inner[clientId := e]]
  }

  /** An entry just added is found while it is valid, and every other
      (domain, client id) pair is found as before. */
  lemma CliGetAfterAdd(store: CliStore, domain: string, clientId: string, e: CliEntry,
                       d: string, c: string, now: int)
    ensures CliGet(CliAdd(store, domain, clientId, e), domain, clientId, now)
            == if e.expiresAt.Some? && e.expiresAt.value >= now then Some(e.token) else None
    ensures (d, c) != (domain, clientId) ==>
            CliGet(CliAdd(store, domain, clientId, e), d, c, now) == CliGet(store, d, c, now)
  {
    var r := CliAdd(store, domain, clientId, e);
    if d == domain && c != clientId {
      var inner := if domain in store then store[domain] else map[];
      assert r[d] == inner[clientId := e];
    }
  }

  /** `TokenCache`, loaded from its path when made. */
  class CliTokenCache {
    const cachePath: string
    var store: CliStore

    constructor (env: map<string, string>, home: string, disk: Disk<CliCacheFile>)
      ensures cachePath == TokenCachePath(env, home)
      ensures store == CliLoad(disk.files, cachePath)
    {
      cachePath := TokenCachePath(env, home);
      store := CliLoad(disk.files, TokenCachePath(env, home));
    }

    function Get(domain: string, clientId: string, now: int): Option<string>
      reads this
    {
      CliGet(store, domain, clientId, now)
    }

    method Add(domain: string, clientId: string, token: string, expiresAt: Option<int>)
      modifies this
      ensures store == CliAdd(old(store), domain, clientId, CliEntry(token, expiresAt))
    {
      if domain !in store {
        store := store[domain := map[]];
      }
      store := store[domain := store[domain][clientId := CliEntry(token, expiresAt)]];
    }

    /** `commit()`: write the whole store back. */
    method Commit(disk: Disk<CliCacheFile>)
      modifies disk
      ensures disk.files == old(disk.files)[cachePath := Entries(store)]
    {
      disk.files := disk.files[cachePath := Entries(store)];
    }
  }

  /** A response of Hudson: its status and its body, None when it is not
      JSON. */
  datatype HudsonResponse = HudsonResponse(status: int, body: Option<Json>)

  /** Python's `str` of a JSON value. */
  function PyStr(j: Json, repr: Json -> string): string {
    match j
    case JNull => "None"
    case JBool(b) => if b then "True" else "False"
    case JInt(i) => IntToString(i)
    case JString(s) => s
    case _ => repr(j)
  }

  /** `json_response.get(key, "")`, with `""` when the body is not a JSON
      object. */
  function ErrorField(body: Option<Json>, key: string, repr: Json -> string): string {
    if body.Some? && body.value.JObject? && key in body.value.fields then PyStr(body.value.fields[key], repr)
    else ""
  }

  /** `_raise_on_hudson_error(response, valid_status_codes)`. */
  function RaiseOnHudsonError(resp: HudsonResponse, validStatusCodes: Option<seq<int>>, repr: Json -> string)
    : (r: Result<(), CliError>)
    ensures var valid := if validStatusCodes.Some? then validStatusCodes.value else [200];
      r.Ok? <==> resp.status in valid
    ensures r.Err? ==> r.error == AuthenticationError("Failed to authenticate with Faculty: "
                                    + ErrorField(resp.body, "error", repr) + " "
                                    + ErrorField(resp.body, "error_description", repr))
  {
    var valid := if validStatusCodes.Some? then validStatusCodes.value else [200];
    if resp.status in valid then Ok(())
    else Err(AuthenticationError("Failed to authenticate with Faculty: "
                                 + ErrorField(resp.body, "error", repr) + " "
                                 + ErrorField(resp.body, "error_description", repr)))
  }

  /** The message names both fields of a JSON error body, and is the bare
      prefix and one space for a body that is not JSON. */
  lemma HudsonErrorMessage(status: int, error: string, description: string, repr: Json -> string)
    requires status != 200
    ensures var body := JObject(map["error" := JString(error), "error_description" := JString(description)]);
      RaiseOnHudsonError(HudsonResponse(status, Some(body)), None, repr)
      == Err(AuthenticationError("Failed to authenticate with Faculty: " + error + " " + description))
    ensures RaiseOnHudsonError(HudsonResponse(status, None), None, repr)
            == Err(AuthenticationError("Failed to authenticate with Faculty:  "))
  {
    var body := JObject(map["error" := JString(error), "error_description" := JString(description)]);
    assert ErrorField(Some(body), "error", repr) == error;
    assert ErrorField(Some(body), "error_description", repr) == description;
    assert ErrorField(None, "error", repr) == "" && ErrorField(None, "error_description", repr) == "";
    assert "Failed to authenticate with Faculty: " + "" + " " + "" == "Failed to authenticate with Faculty:  ";
  }

  /** `_get_token()`'s request: a form POST of the client credentials. */
  function CliTokenRequest(url: string, profile: Profile): TokenRequest
    requires Resolved(profile)
  {
    TokenRequest(url + "/access_token", Payload(profile.clientId.value, profile.clientSecret.value))
  }

  /** `float(value)` on the values it turns into a whole number of seconds:
      an integer, a boolean, or text that reads as an integer. */
  function WholeSeconds(j: Json): Option<int> {
    match j
    case JInt(i) => Some(i)
    case JBool(b) => Some(if b then 1 else 0)
    case JString(s) => CliParse.PyInt(s)
    case _ => None
  }

  /** `_get_token()`'s result from the response: the token, expiring
      `expires_in` seconds after `now`. */
  function TokenFromResponse(resp: HudsonResponse, now: int, repr: Json -> string): (r: Result<CliEntry, CliError>)
    ensures RaiseOnHudsonError(resp, None, repr).Err? ==> r == Err(RaiseOnHudsonError(resp, None, repr).error)
    ensures r.Ok? ==> resp.status == 200 && r.value.expiresAt.Some?
    ensures r.Ok? <==> resp.status == 200 && resp.body.Some? && resp.body.value.JObject?
                       && "access_token" in resp.body.value.fields && resp.body.value.fields["access_token"].JString?
                       && "expires_in" in resp.body.value.fields
                       && WholeSeconds(resp.body.value.fields["expires_in"]).Some?
    ensures r.Ok? ==> r.value.token == resp.body.value.fields["access_token"].s
                      && r.value.expiresAt.value - now == WholeSeconds(resp.body.value.fields["expires_in"]).value
    ensures r.Ok? && resp.body.value.fields["expires_in"].JInt? ==>
              r.value.expiresAt.value - now == resp.body.value.fields["expires_in"].i
  {
    var _ :- RaiseOnHudsonError(resp, None, repr);
    if resp.body.Some? && resp.body.value.JObject? then
      var fields := resp.body.value.fields;
      if "access_token" !in fields then Err(OtherError("KeyError: 'access_token'"))
      else if "expires_in" !in fields then Err(OtherError("KeyError: 'expires_in'"))
      else if !fields["access_token"].JString? || WholeSeconds(fields["expires_in"]).None? then
        Err(OtherError("unexpected token response"))
      else Ok(CliEntry(fields["access_token"].s, Some(now + WholeSeconds(fields["expires_in"]).value)))
    else Err(OtherError("response is not a JSON object"))
  }

  /** An `expires_in` sent as decimal text gives the same expiry as the
      number itself. */
  lemma TokenTextExpiry(resp: HudsonResponse, now: int, repr: Json -> string, token: string, seconds: nat)
    requires resp.status == 200
    requires resp.body == Some(JObject(map["access_token" := JString(token),
                                            "expires_in" := JString(NatToString(seconds))]))
    ensures TokenFromResponse(resp, now, repr) == Ok(CliEntry(token, Some(now + seconds)))
  {
    CliParse.PyIntOfNat(seconds);
  }

  /** What the `token` property returns for a session on `url` when the
      cache file is at `path`. */
  function ObtainToken(profile: Profile, url: string, files: map<string, CliCacheFile>, path: string, now: int,
                       hudson: TokenRequest -> HudsonResponse, repr: Json -> string): Result<string, CliError>
    requires Resolved(profile)
  {
    var loaded := CliLoad(files, path);
    var hit := CliGet(loaded, profile.domain.value, profile.clientId.value, now);
    if hit.Some? then Ok(hit.value)
    else
      var e :- TokenFromResponse(hudson(CliTokenRequest(url, profile)), now, repr);
      Ok(e.token)
  }

  /** The store the `token` property writes back: the loaded one, with the
      fetched entry added when there was one to fetch. */
  function StoreAfter(profile: Profile, url: string, files: map<string, CliCacheFile>, path: string, now: int,
                      hudson: TokenRequest -> HudsonResponse, repr: Json -> string): CliStore
    requires Resolved(profile)
  {
    var loaded := CliLoad(files, path);
    var hit := CliGet(loaded, profile.domain.value, profile.clientId.value, now);
    var fetched := TokenFromResponse(hudson(CliTokenRequest(url, profile)), now, repr);
    if hit.None? && fetched.Ok? then CliAdd(loaded, profile.domain.value, profile.clientId.value, fetched.value)
    else loaded
  }

  /** A cache hit answers without Hudson: any other endpoint gives the same
      token and the same file. */
  lemma HitNeedsNoRequest(profile: Profile, url: string, files: map<string, CliCacheFile>, path: string, now: int,
                          h1: TokenRequest -> HudsonResponse, h2: TokenRequest -> HudsonResponse, repr: Json -> string)
    requires Resolved(profile)
    requires CliGet(CliLoad(files, path), profile.domain.value, profile.clientId.value, now).Some?
    ensures ObtainToken(profile, url, files, path, now, h1, repr) == ObtainToken(profile, url, files, path, now, h2, repr)
    ensures StoreAfter(profile, url, files, path, now, h1, repr) == StoreAfter(profile, url, files, path, now, h2, repr)
  {
  }

  /** After a miss and a fetch, every `token` until the new expiry is served
      from the file written, with the fetched token. */
  lemma FetchedTokenCached(profile: Profile, url: string, files: map<string, CliCacheFile>, path: string,
                           now: int, later: int, hudson: TokenRequest -> HudsonResponse,
                           other: TokenRequest -> HudsonResponse, repr: Json -> string)
    requires Resolved(profile)
    requires CliGet(CliLoad(files, path), profile.domain.value, profile.clientId.value, now).None?
    requires ObtainToken(profile, url, files, path, now, hudson, repr).Ok?
    requires now <= later
    requires var resp := hudson(CliTokenRequest(url, profile));
      resp.body.Some? && resp.body.value.JObject? && "expires_in" in resp.body.value.fields
      && resp.body.value.fields["expires_in"].JInt? && now + resp.body.value.fields["expires_in"].i >= later
    ensures var written := files[path := Entries(StoreAfter(profile, url, files, path, now, hudson, repr))];
      ObtainToken(profile, url, written, path, later, other, repr) == ObtainToken(profile, url, files, path, now, hudson, repr)
  {
    var loaded := CliLoad(files, path);
    var d, c := profile.domain.value, profile.clientId.value;
    var hit := CliGet(loaded, d, c, now);
    var after := StoreAfter(profile, url, files, path, now, hudson, repr);
    var written := files[path := Entries(after)];
    assert CliLoad(written, path) == after;
    var e := TokenFromResponse(hudson(CliTokenRequest(url, profile)), now, repr);
    CliGetAfterAdd(loaded, d, c, e.value, d, c, later);
  }

  /** `Session(url, profile)` of the authentication service. */
  class CliSession {
    const url: string
    const profile: Profile
    /** `_user_id`: None until first asked for. */
    var userId: Option<string>

    constructor (url: string, profile: Profile)
      ensures this.url == url && this.profile == profile && userId == None
    {
      this.url := url;
      this.profile := profile;
      userId := None;
    }

    /** The `token` property: load the cache, fetch and add only on a miss,
        and commit the cache on the way out, even when the fetch fails. */
    method Token(now: int, env: map<string, string>, home: string, disk: Disk<CliCacheFile>,
                 hudson: TokenRequest -> HudsonResponse, repr: Json -> string)
      returns (r: Result<string, CliError>, posted: bool)
      requires Resolved(profile)
      modifies disk
      ensures var path := TokenCachePath(env, home);
        && r == ObtainToken(profile, url, old(disk.files), path, now, hudson, repr)
        && disk.files == old(disk.files)[path := Entries(StoreAfter(profile, url, old(disk.files), path, now, hudson, repr))]
        && (posted <==> CliGet(CliLoad(old(disk.files), path), profile.domain.value, profile.clientId.value, now).None?)
    {
      var cache := new CliTokenCache(env, home, disk);
      var hit := cache.Get(profile.domain.value, profile.clientId.value, now);
      posted := hit.None?;
      if hit.Some? {
        r := Ok(hit.value);
      } else {
        var e := TokenFromResponse(hudson(CliTokenRequest(url, profile)), now, repr);
        if e.Err? {
          cache.Commit(disk);
          return Err(e.error), posted;
        }
        cache.Add(profile.domain.value, profile.clientId.value, e.value.token, e.value.expiresAt);
        r := Ok(e.value.token);
      }
      cache.Commit(disk);
    }

    /** `auth_headers()`. */
    method AuthHeaders(now: int, env: map<string, string>, home: string, disk: Disk<CliCacheFile>,
                       hudson: TokenRequest -> HudsonResponse, repr: Json -> string)
      returns (r: Result<map<string, string>, CliError>)
      requires Resolved(profile)
      modifies disk
      ensures var path := TokenCachePath(env, home);
        var t := ObtainToken(profile, url, old(disk.files), path, now, hudson, repr);
        && (r.Ok? <==> t.Ok?)
        && (r.Err? ==> r.error == t.error)
        && (r.Ok? ==> r.value == map["Authorization" := BearerHeader(t.value)])
        && disk.files == old(disk.files)[path := Entries(StoreAfter(profile, url, old(disk.files), path, now, hudson, repr))]
    {
      var t, _ := Token(now, env, home, disk, hudson, repr);
      if t.Err? {
        return Err(t.error);
      }
      r := Ok(map["Authorization" := BearerHeader(t.value)]);
    }

    /** `_get_account()`: GET `<url>/authenticate` with the user agent and
        the bearer header, and take the body's `account`. */
    method GetAccount(now: int, env: map<string, string>, home: string, disk: Disk<CliCacheFile>,
                      hudson: TokenRequest -> HudsonResponse, account: (string, map<string, string>) -> HudsonResponse,
                      userAgent: string, repr: Json -> string)
      returns (r: Result<Json, CliError>)
      requires Resolved(profile)
      modifies disk
      ensures var path := TokenCachePath(env, home);
        && disk.files == old(disk.files)[path := Entries(StoreAfter(profile, url, old(disk.files), path, now, hudson, repr))]
        && r == AccountOf(ObtainToken(profile, url, old(disk.files), path, now, hudson, repr), url, account, userAgent, repr)
    {
      var headers := AuthHeaders(now, env, home, disk, hudson, repr);
      if headers.Err? {
        return Err(headers.error);
      }
      var resp := account(url + "/authenticate", map["User-Agent" := userAgent] + headers.value);
      r := AccountFrom(resp, repr);
    }

    /** The `user_id` property: parsed from the account once, then memoised. */
    method UserId(now: int, env: map<string, string>, home: string, disk: Disk<CliCacheFile>,
                  hudson: TokenRequest -> HudsonResponse, account: (string, map<string, string>) -> HudsonResponse,
                  userAgent: string, repr: Json -> string, parseUuid: string -> Option<string>)
      returns (r: Result<string, CliError>)
      requires Resolved(profile)
      modifies this, disk
      ensures old(userId).Some? ==> r == Ok(old(userId).value) && userId == old(userId) && disk.files == old(disk.files)
      ensures old(userId).None? ==>
        var path := TokenCachePath(env, home);
        var acc := AccountOf(ObtainToken(profile, url, old(disk.files), path, now, hudson, repr), url, account, userAgent, repr);
        && r == (if acc.Ok? then UserIdFrom(acc.value, parseUuid) else Err(acc.error))
        && userId == (if r.Ok? then Some(r.value) else None)
        && disk.files == old(disk.files)[path := Entries(StoreAfter(profile, url, old(disk.files), path, now, hudson, repr))]
    {
      if userId.Some? {
        return Ok(userId.value);
      }
      var acc := GetAccount(now, env, home, disk, hudson, account, userAgent, repr);
      if acc.Err? {
        return Err(acc.error);
      }
      r := UserIdFrom(acc.value, parseUuid);
      if r.Ok? {
        userId := Some(r.value);
      }
    }

    /** The `username` property: read from the account on every call. */
    method Username(now: int, env: map<string, string>, home: string, disk: Disk<CliCacheFile>,
                    hudson: TokenRequest -> HudsonResponse, account: (string, map<string, string>) -> HudsonResponse,
                    userAgent: string, repr: Json -> string)
      returns (r: Result<Json, CliError>)
      requires Resolved(profile)
      modifies disk
      ensures var path := TokenCachePath(env, home);
        var acc := AccountOf(ObtainToken(profile, url, old(disk.files), path, now, hudson, repr), url, account, userAgent, repr);
        r == (if acc.Ok? then Member(acc.value, "username") else Err(acc.error))
    {
      var acc := GetAccount(now, env, home, disk, hudson, account, userAgent, repr);
      if acc.Err? {
        return Err(acc.error);
      }
      r := Member(acc.value, "username");
    }
  }

  /** `value[key]` on a JSON value: a `KeyError` or `TypeError` when it is
      not an object holding `key`. */
  function Member(value: Json, key: string): (r: Result<Json, CliError>)
    ensures r.Ok? <==> value.JObject? && key in value.fields
    ensures r.Ok? ==> r.value == value.fields[key]
  {
    if value.JObject? && key in value.fields then Ok(value.fields[key]) else Err(OtherError("KeyError: '" + key + "'"))
  }

  /** The `account` of a response to `/authenticate`. */
  function AccountFrom(resp: HudsonResponse, repr: Json -> string): (r: Result<Json, CliError>)
    ensures RaiseOnHudsonError(resp, None, repr).Err? ==> r == Err(RaiseOnHudsonError(resp, None, repr).error)
    ensures r.Ok? <==> resp.status == 200 && resp.body.Some? && Member(resp.body.value, "account").Ok?
  {
    var _ :- RaiseOnHudsonError(resp, None, repr);
    if resp.body.None? then Err(OtherError("response is not JSON")) else Member(resp.body.value, "account")
  }

  /** `_get_account()` once the token is known. */
  function AccountOf(token: Result<string, CliError>, url: string,
                     account: (string, map<string, string>) -> HudsonResponse, userAgent: string, repr: Json -> string)
    : Result<Json, CliError>
  {
    if token.Err? then Err(token.error)
    else AccountFrom(account(url + "/authenticate", map["User-Agent" := userAgent] + map["Authorization" := BearerHeader(token.value)]), repr)
  }

  /** `uuid.UUID(account["userId"])`; the parser is a parameter. */
  function UserIdFrom(acc: Json, parseUuid: string -> Option<string>): (r: Result<string, CliError>)
    ensures r.Ok? <==> acc.JObject? && "userId" in acc.fields && acc.fields["userId"].JString?
                       && parseUuid(acc.fields["userId"].s).Some?
    ensures r.Ok? ==> r.value == parseUuid(acc.fields["userId"].s).value
  {
    var id :- Member(acc, "userId");
    if !id.JString? then Err(OtherError("userId is not a string"))
    else if parseUuid(id.s).None? then Err(OtherError("badly formed hexadecimal UUID string"))
    else Ok(parseUuid(id.s).value)
  }

  /** `_hudson_session` with `_get_session()`. */
  class HudsonSessionHolder {
    var session: Option<CliSession>

    /** A held session is for a resolved profile. */
    predicate Valid()
      reads this
    {
      session.Some? ==> Resolved(session.value.profile)
    }

    constructor ()
      ensures Valid() && session == None
    {
      session := None;
    }

    method GetSession(profiles: ProfileCache, env: map<string, string>, home: string, fs: map<string, IniFile>)
      returns (r: Result<CliSession, string>)
      requires Valid() && profiles.Valid()
      modifies this, profiles
      ensures Valid() && profiles.Valid()
      ensures r.Ok? ==> session == Some(r.value)
      ensures old(session).Some? ==>
        r == Ok(old(session).value) && session == old(session) && profiles.cached == old(profiles.cached)
      ensures old(session).None? && r.Ok? ==>
        fresh(r.value) && session == Some(r.value) && r.value.userId == None
        && profiles.cached == Some(r.value.profile) && Resolved(r.value.profile)
        && r.value.url == Urls.UrlForService(r.value.profile.protocol.value, r.value.profile.domain.value, "hudson")
      ensures old(session).None? ==> (r.Ok? <==> old(profiles.cached).Some? || CliResolve(env, home, fs).Ok?)
      ensures r.Err? ==> session == old(session)
    {
      if session.Some? {
        return Ok(session.value);
      }
      var profile :- profiles.GetProfile(env, home, fs);
      var url := profiles.HudsonUrl(env, home, fs);
      var s := new CliSession(url.value, profile);
      session := Some(s);
      r := Ok(s);
    }
  }

  /** `credentials_valid(profile)`: a token from Hudson at
      `protocol://hudson.domain` means valid, an `AuthenticationError` means
      invalid, and any other error propagates. */
  method CredentialsValid(profile: Profile, now: int, env: map<string, string>, home: string, disk: Disk<CliCacheFile>,
                          hudson: TokenRequest -> HudsonResponse, repr: Json -> string)
    returns (r: Result<bool, CliError>)
    requires Resolved(profile)
    modifies disk
    ensures var url := Urls.UrlForService(profile.protocol.value, profile.domain.value, "hudson");
      var t := ObtainToken(profile, url, old(disk.files), TokenCachePath(env, home), now, hudson, repr);
      && (r == Ok(true) <==> t.Ok?)
      && (r == Ok(false) <==> t.Err? && t.error.AuthenticationError?)
      && (r.Err? <==> t.Err? && t.error.OtherError?)
      && (r.Err? ==> r.error == t.error)
  {
    var url := Urls.UrlForService(profile.protocol.value, profile.domain.value, "hudson");
    var session := new CliSession(url, profile);
    var t, _ := session.Token(now, env, home, disk, hudson, repr);
    if t.Err? && t.error.AuthenticationError? {
      return Ok(false);
    }
    if t.Err? {
      return Err(t.error);
    }
    r := Ok(true);
  }
}
