/** `faculty/session/accesstoken.py`: access tokens, the store keyed by
    profile, and the in-memory and disk-persisted caches over it. Time is an
    integer number of seconds `now`. The store is keyed by the profile
    itself, standing for its hash. The cache file holds the store value;
    its JSON and ISO-8601 encoding is not modelled. */
module AccessTokens {
  import opened Wrappers
  import opened Strings
  import opened PosixPath
  import opened Truthiness
  import opened FacultyConfig

  datatype AccessToken = AccessToken(token: string, expiresAt: int)

  type Store = map<Profile, AccessToken>

  /** `_is_valid_access_token`: present and not yet expired. */
  predicate IsValidAccessToken(t: Option<AccessToken>, now: int) {
    t.Some? && t.value.expiresAt >= now
  }

  /** `_AccessTokenStore.get`: the stored token, or None. */
  function StoreGet(store: Store, profile: Profile): (r: Option<AccessToken>)
    ensures r.Some? <==> profile in store
    ensures r.Some? ==> r.value == store[profile]
  {
    if profile in store then Some(store[profile]) else None
  }

  /** What a cache's `get` answers from its store: the stored token while
      it is valid, None otherwise. */
  function Lookup(store: Store, profile: Profile, now: int): (r: Option<AccessToken>)
    ensures r.Some? <==> profile in store && store[profile].expiresAt >= now
    ensures r.Some? ==> r.value == store[profile]
  {
    var t := StoreGet(store, profile);
    if IsValidAccessToken(t, now) then t else None
  }

  /** A token just added for `p` is found for `p` exactly while it is valid,
      and the entries of other profiles are untouched. */
  lemma LookupAfterAdd(store: Store, p: Profile, t: AccessToken, q: Profile, now: int)
    ensures Lookup(store[p := t], p, now) == (if t.expiresAt >= now then Some(t) else None)
    ensures q != p ==> Lookup(store[p := t], q, now) == Lookup(store, q, now)
  {
  }

  /** Once a token has expired it is never returned again. */
  lemma LookupExpires(store: Store, p: Profile, now: int, later: int)
    requires now <= later && Lookup(store, p, now).None?
    ensures Lookup(store, p, later).None?
  {
  }

  /** `AccessTokenMemoryCache`. */
  class MemoryCache {
    var store: Store

    constructor ()
      ensures store == map[]
    {
      store := map[];
    }

    /** `get(profile)`. */
    function Get(profile: Profile, now: int): Option<AccessToken>
      reads this
    {
      Lookup(store, profile, now)
    }

    /** `add(profile, access_token)`: overwrite this profile's entry only. */
    method Add(profile: Profile, t: AccessToken)
      modifies this
      ensures store == old(store)[profile := t]
    {
      store := store[profile := t];
    }
  }

  /** The state of a token cache file: the store it holds, content that does
      not decode as a store (invalid JSON or schema), or a file that exists
      but cannot be opened (an `IOError` other than "no such file"). */
  datatype CacheFile = Stored(tokens: Store) | Malformed | Unreadable

  /** The files of the disk, by path, each holding content of type `C`; a
      path that is absent does not exist. */
  class Disk<C> {
    var files: map<string, C>

    constructor (files: map<string, C>)
      ensures this.files == files
    {
      this.files := files;
    }
  }

  /** `_load_from_disk`'s outcome for a file: a missing or malformed file
      is an empty store, an unreadable one an error. */
  function LoadedStore(files: map<string, CacheFile>, path: string): (r: Result<Store, string>)
    ensures r.Err? <==> path in files && files[path].Unreadable?
    ensures path in files && files[path].Stored? ==> r == Ok(files[path].tokens)
    ensures (path !in files || files[path].Malformed?) ==> r == Ok(map[])
  {
    if path !in files then Ok(map[])
    else match files[path]
      case Stored(tokens) => Ok(tokens)
      case Malformed => Ok(map[])
      case Unreadable => Err("could not read " + path)
  }

  /** `_default_token_cache_path()`: `faculty/token-cache.json` under
      `XDG_CACHE_HOME`, or under `~/.cache` when that is unset or empty. */
  function DefaultTokenCachePath(env: map<string, string>, home: string): (r: string)
    ensures var xdg := Getenv(env, "XDG_CACHE_HOME");
      var base := if Truthy(xdg) then xdg.value else RStripChar(home, '/') + "/.cache";
      r == Join(base, "faculty") + "/token-cache.json"
  {
    var xdg := Getenv(env, "XDG_CACHE_HOME");
    var base := if Truthy(xdg) then xdg.value else RStripChar(home, '/') + "/.cache";
    TokenCacheUnder(base);
    JoinAll(base, ["faculty", "token-cache.json"])
  }

  lemma TokenCacheUnder(base: string)
    ensures JoinAll(base, ["faculty", "token-cache.json"]) == Join(base, "faculty") + "/token-cache.json"
  {
    var file := "token-cache.json";
    assert file[0] == 't';
    JoinAllTwo(base, "faculty", file);
  }

  /** Joining a directory name and a file name onto a base adds one `/`
      before the file name. */
  lemma JoinAllTwo(base: string, dir: string, file: string)
    requires dir != "" && dir[0] != '/' && dir[|dir| - 1] != '/'
    requires file != "" && file[0] != '/'
    ensures JoinAll(base, [dir, file]) == Join(base, dir) + "/" + file
  {
    var a := Join(base, dir);
    assert !StartsWith(dir, "/");
    assert a[|a| - 1] == dir[|dir| - 1];
    EndsWithChar(a, '/');
    assert !StartsWith(file, "/");
    assert JoinAll(base, [dir, file]) == JoinAll(a, [file]) by {
      assert [dir, file][1..] == [file];
    }
    assert [file][1..] == [];
    assert JoinAll(a, [file]) == Join(a, file);
  }

  /** `AccessTokenFileSystemCache`: the store is read from `cachePath` on
      first use and written back after every `add`. */
  class FileSystemCache {
    const cachePath: string
    /** `_store`: None until loaded. */
    var store: Option<Store>

    /** `__init__(cache_path)`: a None path means the default path. */
    constructor (cachePath: Option<string>, env: map<string, string>, home: string)
      ensures this.cachePath == (if cachePath.Some? then cachePath.value else DefaultTokenCachePath(env, home))
      ensures store == None
    {
      this.cachePath := if cachePath.Some? then cachePath.value else DefaultTokenCachePath(env, home);
      store := None;
    }

    /** Load the store when it is not loaded yet. */
    method EnsureLoaded(disk: Disk<CacheFile>) returns (r: Result<Store, string>)
      modifies this
      ensures old(store).Some? ==> store == old(store) && r == Ok(store.value)
      ensures old(store).None? ==>
                r == LoadedStore(disk.files, cachePath)
                && store == (if r.Ok? then Some(r.value) else None)
    {
      if store.None? {
        r := LoadedStore(disk.files, cachePath);
        if r.Ok? {
          store := Some(r.value);
        }
      } else {
        r := Ok(store.value);
      }
    }

    /** `get(profile)`. */
    method Get(profile: Profile, now: int, disk: Disk<CacheFile>) returns (r: Result<Option<AccessToken>, string>)
      modifies this
      ensures old(store).Some? ==> store == old(store)
      ensures old(store).None? ==>
                store == (if LoadedStore(disk.files, cachePath).Ok? then Some(LoadedStore(disk.files, cachePath).value) else None)
      ensures r.Err? <==> store.None?
      ensures r.Ok? ==> r.value == Lookup(store.value, profile, now)
    {
      var s :- EnsureLoaded(disk);
      r := Ok(Lookup(s, profile, now));
    }

    /** `add(profile, access_token)`: update the store and persist it. */
    method Add(profile: Profile, t: AccessToken, disk: Disk<CacheFile>) returns (r: Result<(), string>)
      modifies this, disk
      ensures old(store).None? && LoadedStore(old(disk.files), cachePath).Err? ==>
                r.Err? && store == None && disk.files == old(disk.files)
      ensures r.Ok? ==>
                var before := if old(store).Some? then old(store).value else LoadedStore(old(disk.files), cachePath).value;
                store == Some(before[profile := t])
                && disk.files == old(disk.files)[cachePath := Stored(before[profile := t])]
      ensures r.Ok? <==> old(store).Some? || LoadedStore(old(disk.files), cachePath).Ok?
    {
      var s :- EnsureLoaded(disk);
      store := Some(s[profile := t]);
      disk.files := disk.files[cachePath := Stored(store.value)];
      r := Ok(());
    }
  }

  /** After `add` on a file cache, a fresh cache on the same path returns
      the token while it is valid. */
  method FreshCacheSeesAdd(path: string, profile: Profile, t: AccessToken, now: int, disk: Disk<CacheFile>,
                           env: map<string, string>, home: string)
    returns (added: Result<(), string>, found: Result<Option<AccessToken>, string>)
    modifies disk
    ensures added.Ok? ==> found == Ok(if t.expiresAt >= now then Some(t) else None)
  {
    var first := new FileSystemCache(Some(path), env, home);
    added := first.Add(profile, t, disk);
    var second := new FileSystemCache(Some(path), env, home);
    found := second.Get(profile, now, disk);
  }
}
