/** `faculty/session/__init__.py` and its older duplicate `faculty/session.py`:
    a session pairs a resolved profile with a token cache, fetches a token
    only on a cache miss, and `get_session` memoises sessions by their
    arguments. The token endpoint is the function `endpoint` from the
    request sent to what it answers. */
module Sessions {
  import opened Wrappers
  import opened Truthiness
  import opened FacultyConfig
  import opened AccessTokens
  import Urls

  /** A POST to the token endpoint: its URL and JSON payload. */
  datatype TokenRequest = TokenRequest(url: string, payload: map<string, string>)

  /** What the endpoint answers: a token and its lifetime in seconds, or a
      failure (an error status, or a body without the expected keys). */
  datatype TokenReply = Granted(accessToken: string, expiresIn: int) | Refused(message: string)

  /** The client-credentials grant for an id and secret. */
  function Payload(clientId: string, clientSecret: string): map<string, string> {
    map["client_id" := clientId, "client_secret" := clientSecret, "grant_type" := "client_credentials"]
  }

  /** `_get_access_token(profile)`'s request. */
  function TokenRequestFor(profile: Profile): (r: TokenRequest)
    requires Resolved(profile)
    ensures r.url == profile.protocol.value + "://hudson." + profile.domain.value + "/access_token"
    ensures r.payload == Payload(profile.clientId.value, profile.clientSecret.value)
  {
    var protocol, domain := profile.protocol.value, profile.domain.value;
    Urls.ServiceUrlShape(protocol, domain, "hudson", "access_token");
    assert protocol + "://" + "hudson" + "." + domain == protocol + "://hudson." + domain;
    TokenRequest(Urls.ServiceUrl(protocol, domain, "hudson", "access_token"),
                 Payload(profile.clientId.value, profile.clientSecret.value))
  }

  /** The token a reply grants at time `now`: it expires `expires_in`
      seconds later. */
  function TokenOf(reply: TokenReply, now: int): (r: Result<AccessToken, string>)
    ensures r.Ok? <==> reply.Granted?
    ensures r.Ok? ==> r.value.token == reply.accessToken && r.value.expiresAt - now == reply.expiresIn
  {
    match reply
    case Granted(token, expiresIn) => Ok(AccessToken(token, now + expiresIn))
    case Refused(message) => Err(message)
  }

  /** `_get_access_token(profile)`. */
  function FetchAccessToken(profile: Profile, now: int, endpoint: TokenRequest -> TokenReply): Result<AccessToken, string>
    requires Resolved(profile)
  {
    TokenOf(endpoint(TokenRequestFor(profile)), now)
  }

  /** A session's token cache: either kind of cache object. */
  datatype TokenCache = InMemory(memory: MemoryCache) | OnDisk(file: FileSystemCache)

  class Session {
    const profile: Profile
    const cache: TokenCache

    constructor (profile: Profile, cache: TokenCache)
      ensures this.profile == profile && this.cache == cache
    {
      this.profile := profile;
      this.cache := cache;
    }

    /** `access_token()` with an in-memory cache: a valid cached token is
        returned without a fetch; otherwise one token is fetched and added. */
    method AccessTokenInMemory(now: int, endpoint: TokenRequest -> TokenReply)
      returns (r: Result<AccessToken, string>, fetched: bool)
      requires Resolved(profile) && cache.InMemory?
      modifies cache.memory
      ensures var hit := Lookup(old(cache.memory.store), profile, now);
        && (hit.Some? ==> r == Ok(hit.value) && !fetched && cache.memory.store == old(cache.memory.store))
        && (hit.None? ==> fetched && r == FetchAccessToken(profile, now, endpoint))
        && (hit.None? && r.Ok? ==> cache.memory.store == old(cache.memory.store)[profile := r.value])
        && (r.Err? ==> cache.memory.store == old(cache.memory.store))
    {
      var m := cache.memory;
      var hit := m.Get(profile, now);
      if hit.Some? {
        return Ok(hit.value), false;
      }
      fetched := true;
      r := FetchAccessToken(profile, now, endpoint);
      if r.Ok? {
        m.Add(profile, r.value);
      }
    }

    /** `access_token()` with a disk-persisted cache: as above, and the
        added token is written to the cache file. An unreadable cache file
        is an error before any fetch. */
    method AccessTokenOnDisk(now: int, endpoint: TokenRequest -> TokenReply, disk: Disk<CacheFile>)
      returns (r: Result<AccessToken, string>, fetched: bool)
      requires Resolved(profile) && cache.OnDisk?
      modifies cache.file, disk
      ensures var f := cache.file;
        var before := if old(f.store).Some? then Ok(old(f.store).value) else LoadedStore(old(disk.files), f.cachePath);
        && (before.Err? ==> r.Err? && !fetched && disk.files == old(disk.files))
        && (before.Ok? && Lookup(before.value, profile, now).Some? ==>
              r == Ok(Lookup(before.value, profile, now).value) && !fetched
              && f.store == Some(before.value) && disk.files == old(disk.files))
        && (before.Ok? && Lookup(before.value, profile, now).None? ==>
              fetched && (r.Ok? <==> FetchAccessToken(profile, now, endpoint).Ok?))
        && (before.Ok? && Lookup(before.value, profile, now).None? && r.Ok? ==>
              r == FetchAccessToken(profile, now, endpoint)
              && f.store == Some(before.value[profile := r.value])
              && disk.files == old(disk.files)[f.cachePath := Stored(before.value[profile := r.value])])
    {
      var f := cache.file;
      var got := f.Get(profile, now, disk);
      if got.Err? {
        return Err(got.error), false;
      }
      if got.value.Some? {
        return Ok(got.value.value), false;
      }
      fetched := true;
      var token := FetchAccessToken(profile, now, endpoint);
      if token.Err? {
        return Err(token.error), true;
      }
      var added := f.Add(profile, token.value, disk);
      r := Ok(token.value);
    }

    /** `service_url(service_name, endpoint)`. */
    function ServiceUrl(serviceName: string, endpoint: string): string
      requires Resolved(profile)
    {
      Urls.ServiceUrl(profile.protocol.value, profile.domain.value, serviceName, endpoint)
    }
  }

  /** A second `access_token()` soon after a fetch uses the cached token. */
  method SecondCallHitsCache(s: Session, now: int, endpoint: TokenRequest -> TokenReply)
    returns (first: Result<AccessToken, string>, second: Result<AccessToken, string>, fetchedAgain: bool)
    requires Resolved(s.profile) && s.cache.InMemory?
    requires endpoint(TokenRequestFor(s.profile)).Granted? && endpoint(TokenRequestFor(s.profile)).expiresIn >= 0
    modifies s.cache.memory
    ensures second == first && !fetchedAgain
  {
    var f1;
    first, f1 := s.AccessTokenInMemory(now, endpoint);
    second, fetchedAgain := s.AccessTokenInMemory(now, endpoint);
  }

  /** The memo key of `get_session`: the cache argument and the other
      arguments, in their fixed order. */
  datatype SessionKey = SessionKey(cache: Option<TokenCache>, args: Arguments)

  /** `_SESSION_CACHE` with `get_session`. */
  class SessionRegistry {
    var sessions: map<SessionKey, Session>

    constructor ()
      ensures sessions == map[]
    {
      sessions := map[];
    }

    /** `get_session(access_token_cache, ...)`: the memoised session for the
        same arguments; otherwise the profile is resolved and a new session
        made with the given cache, or with a new memory cache. */
    method GetSession(cacheArg: Option<TokenCache>, args: Arguments, env: map<string, string>, home: string,
                      fs: map<string, IniFile>) returns (r: Result<Session, string>)
      modifies this
      ensures var key := SessionKey(cacheArg, args);
        && (key in old(sessions) ==> r == Ok(old(sessions)[key]) && sessions == old(sessions))
        && (key !in old(sessions) && ResolveProfile(args, env, home, fs).Err? ==>
              r == Err(ResolveProfile(args, env, home, fs).error) && sessions == old(sessions))
        && (key !in old(sessions) && ResolveProfile(args, env, home, fs).Ok? ==>
              r.Ok? && fresh(r.value) && sessions == old(sessions)[key := r.value]
              && r.value.profile == ResolveProfile(args, env, home, fs).value
              && (cacheArg.Some? ==> r.value.cache == cacheArg.value)
              && (cacheArg.None? ==> r.value.cache.InMemory? && fresh(r.value.cache.memory)
                                     && r.value.cache.memory.store == map[]))
    {
      var key := SessionKey(cacheArg, args);
      if key in sessions {
        return Ok(sessions[key]);
      }
      var profile :- ResolveProfile(args, env, home, fs);
      var cache: TokenCache;
      if cacheArg.Some? {
        cache := cacheArg.value;
      } else {
        var m := new MemoryCache();
        cache := InMemory(m);
      }
      var s := new Session(profile, cache);
      sessions := sessions[key := s];
      r := Ok(s);
    }
  }

  /** Identical arguments give the identical session object. */
  method GetSessionTwice(reg: SessionRegistry, cacheArg: Option<TokenCache>, args: Arguments,
                         env: map<string, string>, home: string, fs: map<string, IniFile>)
    returns (first: Result<Session, string>, second: Result<Session, string>)
    modifies reg
    ensures first.Ok? ==> second == first
  {
    first := reg.GetSession(cacheArg, args, env, home, fs);
    second := reg.GetSession(cacheArg, args, env, home, fs);
  }

  // ---------------------------------------------------------------------------
  // faculty/session.py: `get_session(access_token_cache=None, **kwargs)`
  // ---------------------------------------------------------------------------

  /** Keyword arguments in the order they were passed. */
  type Kwargs = seq<(string, Option<string>)>

  /** Pass one keyword argument to `resolve_profile`; an unknown name is a
      `TypeError`. */
  function SetArgument(a: Arguments, name: string, value: Option<string>): Result<Arguments, string> {
    if name == "credentials_path" then Ok(a.(credentialsPath := value))
    else if name == "profile_name" then Ok(a.(profileName := value))
    else if name == "domain" then Ok(a.(domain := value))
    else if name == "protocol" then Ok(a.(protocol := value))
    else if name == "client_id" then Ok(a.(clientId := value))
    else if name == "client_secret" then Ok(a.(clientSecret := value))
    else Err("resolve_profile() got an unexpected keyword argument '" + name + "'")
  }

  /** `resolve_profile(**kwargs)`'s arguments. */
  function ArgumentsOf(kwargs: Kwargs): Result<Arguments, string>
    decreases |kwargs|
  {
    if |kwargs| == 0 then Ok(Arguments(None, None, None, None, None, None))
    else
      var rest :- ArgumentsOf(kwargs[1..]);
      SetArgument(rest, kwargs[0].0, kwargs[0].1)
  }

  /** The memo key `tuple(kwargs.items()) + (access_token_cache,)`. */
  datatype LegacyKey = LegacyKey(items: Kwargs, cache: Option<TokenCache>)

  class LegacySessionRegistry {
    var sessions: map<LegacyKey, Session>

    constructor ()
      ensures sessions == map[]
    {
      sessions := map[];
    }

    method GetSession(cacheArg: Option<TokenCache>, kwargs: Kwargs, env: map<string, string>, home: string,
                      fs: map<string, IniFile>) returns (r: Result<Session, string>)
      modifies this
      ensures var key := LegacyKey(kwargs, cacheArg);
        && (key in old(sessions) ==> r == Ok(old(sessions)[key]) && sessions == old(sessions))
        && (key !in old(sessions) && r.Ok? ==>
              fresh(r.value) && sessions == old(sessions)[key := r.value]
              && ArgumentsOf(kwargs).Ok?
              && Ok(r.value.profile) == ResolveProfile(ArgumentsOf(kwargs).value, env, home, fs))
        && (key !in old(sessions) ==>
              (r.Ok? <==> ArgumentsOf(kwargs).Ok? && ResolveProfile(ArgumentsOf(kwargs).value, env, home, fs).Ok?))
        && (r.Err? ==> sessions == old(sessions))
    {
      var key := LegacyKey(kwargs, cacheArg);
      if key in sessions {
        return Ok(sessions[key]);
      }
      var args :- ArgumentsOf(kwargs);
      var profile :- ResolveProfile(args, env, home, fs);
      var cache: TokenCache;
      if cacheArg.Some? {
        cache := cacheArg.value;
      } else {
        var m := new MemoryCache();
        cache := InMemory(m);
      }
      var s := new Session(profile, cache);
      sessions := sessions[key := s];
      r := Ok(s);
    }
  }

  /** The same keyword arguments in another order resolve the same profile
      but make a different memo key. */
  lemma KeywordOrderMatters(a: Option<string>, b: Option<string>, cache: Option<TokenCache>)
    ensures var k1: Kwargs := [("domain", a), ("protocol", b)];
      var k2: Kwargs := [("protocol", b), ("domain", a)];
      ArgumentsOf(k1) == ArgumentsOf(k2) && ArgumentsOf(k1).Ok?
      && LegacyKey(k1, cache) != LegacyKey(k2, cache)
  {
    var k1: Kwargs := [("domain", a), ("protocol", b)];
    var k2: Kwargs := [("protocol", b), ("domain", a)];
    assert k1[1..] == [("protocol", b)] && k2[1..] == [("domain", a)];
    assert k1[1..][1..] == [] && k2[1..][1..] == [];
    var none := Arguments(None, None, None, None, None, None);
    assert ArgumentsOf(k1[1..]) == Ok(none.(protocol := b));
    assert ArgumentsOf(k2[1..]) == Ok(none.(domain := a));
    assert ArgumentsOf(k1) == Ok(none.(protocol := b).(domain := a));
    assert ArgumentsOf(k2) == Ok(none.(domain := a).(protocol := b));
    assert k1[0].0 != k2[0].0;
  }
}
