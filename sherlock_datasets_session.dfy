/** `sherlockml/datasets/session.py`: the datasets session caches each
    project's bucket for good and its secrets for `SECRETS_CACHE_TTL` seconds,
    and polls the secret service until the secrets are verified. The secret
    service is a parameter: `answer(n)` is what its `n`-th call returns. */
module SherlockDatasetsSession {
  import opened Wrappers

  const SECRETS_CACHE_TTL: int := 10
  const MAX_SECRET_TRIES: nat := 30
  const NoProjectIdMessage: string :=
    "No SHERLOCKML_PROJECT_ID in environment - set the project ID explicitly to use outside of SherlockML"

  datatype Secrets = Secrets(bucket: string, accessKey: string, secretKey: string, verified: bool)

  /** `project_id_from_environment()`: the `SherlockMLDatasetsError` of an
      unset variable becomes `Err`. */
  function ProjectIdFromEnvironment(env: map<string, string>): (r: Result<string, string>)
    ensures r.Ok? <==> "SHERLOCKML_PROJECT_ID" in env
    ensures r.Ok? ==> r.value == env["SHERLOCKML_PROJECT_ID"]
  {
    if "SHERLOCKML_PROJECT_ID" in env then Ok(env["SHERLOCKML_PROJECT_ID"])
    else Err(NoProjectIdMessage)
  }

  /** A project id argument, or the environment's when it is None. */
  function ResolveProjectId(projectId: Option<string>, env: map<string, string>): (r: Result<string, string>)
    ensures projectId.Some? ==> r == Ok(projectId.value)
    ensures projectId.None? ==> r == ProjectIdFromEnvironment(env)
  {
    if projectId.Some? then Ok(projectId.value) else ProjectIdFromEnvironment(env)
  }

  /** No verified answer among the first `n` calls. */
  predicate NoneVerified(answer: nat -> Secrets, n: nat) {
    forall i: nat :: i < n ==> !answer(i).verified
  }

  /** `_get_verified_secrets`: fetch, and fetch again while unverified, at most
      30 times in all. `tries` is the number of fetches made. */
  method GetVerifiedSecrets(answer: nat -> Secrets) returns (r: Result<Secrets, string>, tries: nat)
    ensures 1 <= tries <= MAX_SECRET_TRIES
    ensures NoneVerified(answer, tries - 1)
    ensures r.Ok? <==> answer(tries - 1).verified
    ensures r.Ok? ==> r.value == answer(tries - 1)
    ensures r.Err? ==> tries == MAX_SECRET_TRIES && NoneVerified(answer, MAX_SECRET_TRIES)
  {
    var secrets := answer(0);
    tries := 1;
    while !secrets.verified
      invariant 1 <= tries <= MAX_SECRET_TRIES
      invariant secrets == answer(tries - 1)
      invariant NoneVerified(answer, tries - 1)
      decreases MAX_SECRET_TRIES - tries
    {
      if tries >= MAX_SECRET_TRIES {
        return Err("Secrets not verified after 60 seconds"), tries;
      }
      secrets := answer(tries);
      tries := tries + 1;
    }
    r := Ok(secrets);
  }

  /** Whether `_cached_secrets` fetches: the project is absent, or its entry
      is older than the time to live. */
  predicate SecretsStale(cache: map<string, (Secrets, int)>, projectId: string, now: int) {
    projectId !in cache || cache[projectId].1 + SECRETS_CACHE_TTL < now
  }

  /** `DatasetsSession`: the per-project bucket and secrets caches. */
  class DatasetsSession {
    var bucketCache: map<string, string>
    var secretsCache: map<string, (Secrets, int)>
    /** The projects whose bucket was fetched, in order. */
    ghost var bucketFetches: seq<string>

    /** Each project's bucket was fetched exactly once. */
    ghost predicate Valid()
      reads this
    {
      (forall i, j :: 0 <= i < j < |bucketFetches| ==> bucketFetches[i] != bucketFetches[j])
      && (forall id :: id in bucketCache <==> id in bucketFetches)
    }

    constructor ()
      ensures Valid() && bucketCache == map[] && secretsCache == map[] && bucketFetches == []
    {
      bucketCache := map[];
      secretsCache := map[];
      bucketFetches := [];
    }

    /** `bucket(project_id)`: the secrets are fetched only for a project not
        seen before; afterwards the cached bucket is returned. */
    method Bucket(projectId: Option<string>, env: map<string, string>, answer: string -> Secrets)
      returns (r: Result<string, string>)
      requires Valid()
      modifies this
      ensures Valid() && secretsCache == old(secretsCache)
      ensures ResolveProjectId(projectId, env).Err? ==> r.Err? && unchanged(this)
      ensures ResolveProjectId(projectId, env).Ok? ==>
        var id := ResolveProjectId(projectId, env).value;
        id in bucketCache && r == Ok(bucketCache[id])
        && (id in old(bucketCache) ==> bucketCache == old(bucketCache) && bucketFetches == old(bucketFetches))
        && (id !in old(bucketCache) ==>
              bucketCache == old(bucketCache)[id := answer(id).bucket] && bucketFetches == old(bucketFetches) + [id])
    {
      var resolved := ResolveProjectId(projectId, env);
      if resolved.Err? {
        return Err(resolved.error);
      }
      var id := resolved.value;
      if id !in bucketCache {
        bucketCache := bucketCache[id := answer(id).bucket];
        bucketFetches := bucketFetches + [id];
      }
      r := Ok(bucketCache[id]);
    }

    /** `_cached_secrets(project_id)`: the clock is read twice. `now` is the
        reading that decides whether the cached entry is stale; `later(n)` is
        the reading taken after a fetch that made `n` calls to the service
        (with its `n - 1` sleeps in between), and is the time stored. */
    method CachedSecrets(projectId: string, now: int, later: nat -> int, answer: nat -> Secrets)
      returns (r: Result<Secrets, string>)
      modifies this`secretsCache
      ensures !SecretsStale(old(secretsCache), projectId, now) ==>
        r == Ok(old(secretsCache)[projectId].0) && secretsCache == old(secretsCache)
      ensures SecretsStale(old(secretsCache), projectId, now) && r.Ok? ==>
        exists k: nat :: k < MAX_SECRET_TRIES && NoneVerified(answer, k) && answer(k).verified
          && r.value == answer(k) && secretsCache == old(secretsCache)[projectId := (answer(k), later(k + 1))]
      ensures r.Err? <==> SecretsStale(old(secretsCache), projectId, now) && NoneVerified(answer, MAX_SECRET_TRIES)
      ensures r.Err? ==> secretsCache == old(secretsCache)
    {
      if SecretsStale(secretsCache, projectId, now) {
        var fetched, tries := GetVerifiedSecrets(answer);
        if fetched.Err? {
          return Err(fetched.error);
        }
        secretsCache := secretsCache[projectId := (fetched.value, later(tries))];
        assert NoneVerified(answer, tries - 1) && answer(tries - 1).verified && tries - 1 < MAX_SECRET_TRIES;
      }
      r := Ok(secretsCache[projectId].0);
    }

    /** The secrets `s3_client(project_id)` builds its client from. */
    method S3Secrets(projectId: Option<string>, env: map<string, string>, now: int, later: nat -> int,
                     answer: nat -> Secrets)
      returns (r: Result<Secrets, string>)
      modifies this`secretsCache
      ensures ResolveProjectId(projectId, env).Err? ==>
        r == Err(ResolveProjectId(projectId, env).error) && secretsCache == old(secretsCache)
      ensures ResolveProjectId(projectId, env).Ok? ==>
        var id := ResolveProjectId(projectId, env).value;
        && (!SecretsStale(old(secretsCache), id, now) ==>
              r == Ok(old(secretsCache)[id].0) && secretsCache == old(secretsCache))
        && (SecretsStale(old(secretsCache), id, now) && r.Ok? ==>
              exists k: nat :: k < MAX_SECRET_TRIES && NoneVerified(answer, k) && answer(k).verified
                && r.value == answer(k) && secretsCache == old(secretsCache)[id := (answer(k), later(k + 1))])
        && (r.Err? <==> SecretsStale(old(secretsCache), id, now) && NoneVerified(answer, MAX_SECRET_TRIES))
        && (r.Err? ==> secretsCache == old(secretsCache))
      ensures r.Ok? ==> r.value.verified || ResolveProjectId(projectId, env).value in old(secretsCache)
    {
      var resolved := ResolveProjectId(projectId, env);
      if resolved.Err? {
        return Err(resolved.error);
      }
      r := CachedSecrets(resolved.value, now, later, answer);
    }
  }

  /** The module-level `DATASETS_SESSION` and `get()`. */
  class SessionHolder {
    var current: DatasetsSession?

    constructor ()
      ensures current == null
    {
      current := null;
    }

    /** `get()`: creates the session on the first call and returns the same
        instance on every later one. */
    method Get() returns (s: DatasetsSession)
      modifies this
      ensures current == s
      ensures old(current) != null ==> s == old(current)
      ensures old(current) == null ==> fresh(s) && s.Valid() && s.bucketCache == map[] && s.secretsCache == map[]
    {
      if current == null {
        current := new DatasetsSession();
      }
      s := current;
    }
  }

  /** Two lookups of the same project fetch its bucket once. */
  method BucketTwice(projectId: string, answer: string -> Secrets) returns (first: string, second: string)
    ensures first == second == answer(projectId).bucket
  {
    var session := new DatasetsSession();
    var r1 := session.Bucket(Some(projectId), map[], answer);
    var r2 := session.Bucket(Some(projectId), map[], answer);
    assert |session.bucketFetches| == 1;
    first, second := r1.value, r2.value;
  }
}
