/** `faculty/clients/auth.py`: the `requests` auth hook that adds a bearer
    token for a profile, with the module-level token cache
    `_ACCESS_TOKEN_CACHE`. That cache keeps the same rule as
    `AccessTokens.MemoryCache` and is modelled by it. */
module FacultyAuth {
  import opened Wrappers
  import opened FacultyConfig
  import opened AccessTokens
  import opened Sessions
  import opened Http

  /** `_get_access_token_cached(profile)`: the cached token while valid,
      otherwise a fetched token, which is added to the cache. */
  method GetAccessTokenCached(profile: Profile, cache: MemoryCache, now: int, endpoint: TokenRequest -> TokenReply)
    returns (r: Result<AccessToken, string>, fetched: bool)
    requires Resolved(profile)
    modifies cache
    ensures var hit := Lookup(old(cache.store), profile, now);
      && (hit.Some? ==> r == Ok(hit.value) && !fetched && cache.store == old(cache.store))
      && (hit.None? ==> fetched && r == FetchAccessToken(profile, now, endpoint))
      && (hit.None? && r.Ok? ==> cache.store == old(cache.store)[profile := r.value])
      && (r.Err? ==> cache.store == old(cache.store))
  {
    var hit := cache.Get(profile, now);
    if hit.Some? {
      return Ok(hit.value), false;
    }
    fetched := true;
    r := FetchAccessToken(profile, now, endpoint);
    if r.Ok? {
      cache.Add(profile, r.value);
    }
  }

  class FacultyAuth {
    const profile: Profile

    constructor (profile: Profile)
      ensures this.profile == profile
    {
      this.profile := profile;
    }

    /** `__call__(request)`: set `Authorization` to the bearer token and
        leave the rest of the request alone; a failed fetch raises before
        the request is touched. */
    method Call(request: PreparedRequest, cache: MemoryCache, now: int, endpoint: TokenRequest -> TokenReply)
      returns (r: Result<PreparedRequest, string>, fetched: bool)
      requires Resolved(profile)
      modifies request, cache
      ensures request.url == old(request.url)
      ensures fetched <==> Lookup(old(cache.store), profile, now).None?
      ensures r.Err? ==> request.headers == old(request.headers) && cache.store == old(cache.store)
                         && fetched && FetchAccessToken(profile, now, endpoint).Err?
      ensures r.Ok? ==> r.value == request
      ensures r.Ok? && !fetched ==>
        request.headers == old(request.headers)["Authorization" := BearerHeader(old(cache.store)[profile].token)]
        && cache.store == old(cache.store)
      ensures r.Ok? && fetched ==>
        var token := FetchAccessToken(profile, now, endpoint);
        token.Ok? && request.headers == old(request.headers)["Authorization" := BearerHeader(token.value.token)]
        && cache.store == old(cache.store)[profile := token.value]
    {
      var token;
      token, fetched := GetAccessTokenCached(profile, cache, now, endpoint);
      if token.Err? {
        return Err(token.error), fetched;
      }
      request.headers := request.headers["Authorization" := BearerHeader(token.value.token)];
      r := Ok(request);
    }
  }

  /** Two requests authenticated at the same time with a granted,
      unexpired token cost one fetch and carry the same header. */
  method TwoRequestsOneFetch(auth: FacultyAuth, q1: PreparedRequest, q2: PreparedRequest, cache: MemoryCache,
                             now: int, endpoint: TokenRequest -> TokenReply)
    returns (fetchedFirst: bool, fetchedSecond: bool)
    requires Resolved(auth.profile) && q1 != q2
    requires endpoint(TokenRequestFor(auth.profile)).Granted? && endpoint(TokenRequestFor(auth.profile)).expiresIn >= 0
    modifies q1, q2, cache
    ensures !fetchedSecond
    ensures "Authorization" in q1.headers && "Authorization" in q2.headers
    ensures q1.headers["Authorization"] == q2.headers["Authorization"]
  {
    var r1, r2;
    r1, fetchedFirst := auth.Call(q1, cache, now, endpoint);
    r2, fetchedSecond := auth.Call(q2, cache, now, endpoint);
  }
}
