// The cached repository allowlist.

module Allowlist {
  import opened Prelude
  import opened Domain
  import opened CacheKeys
  import opened RedisValues
  import opened Stores
  import opened Redis

  /** How the table call and the cache call of one operation go. */
  datatype CallFaults = CallFaults(cacheRead: Fault, table: Fault, cacheWrite: Fault)

  function Text(allowed: bool): Value {
    TextV(if allowed then "true" else "false")
  }

  /** CachingRepositoryAllowlist.IsAllowed: the new cache entries and the answer. */
  function Ask(members: set<string>, entries: Entries, now: nat, ttl: int, repo: string, f: CallFaults)
    : (Entries, Result<bool, Error>)
  {
    var key := OIDCGitHubRepoKey(repo);
    if f.cacheRead == Fine && key in Live(entries, now) then (entries, Ok(Live(entries, now)[key] == TextV("true")))
    else if f.table != Fine || '\0' in repo then (entries, Err(StoreFailure))
    else (SetEntry(entries, now, key, Text(repo in members), ttl, f.cacheWrite), Ok(repo in members))
  }

  /** Add: the table, the cache entries and the outcome. The cache gets the name as it is, whatever
      the column makes of it. */
  function Add(members: set<string>, entries: Entries, now: nat, ttl: int, repo: string, f: CallFaults)
    : (set<string>, Entries, Result<(), Error>)
  {
    var text := Column(repo);
    if f.table == Lost || text.None? then (members, entries, Err(StoreFailure))
    else if f.table == Unacked then (members + {text.value}, entries, Err(StoreFailure))
    else (members + {text.value}, SetEntry(entries, now, OIDCGitHubRepoKey(repo), Text(true), ttl, f.cacheWrite),
          Ok(()))
  }

  function Remove(members: set<string>, entries: Entries, repo: string, f: CallFaults)
    : (set<string>, Entries, Result<(), Error>)
  {
    if f.table == Lost || '\0' in repo then (members, entries, Err(StoreFailure))
    else if f.table == Unacked then (members - {repo}, entries, Err(StoreFailure))
    else if repo !in members then (members, entries, Err(NotFound))
    else (members - {repo}, RemoveEntry(entries, OIDCGitHubRepoKey(repo), f.cacheWrite), Ok(()))
  }

  // ---------- the class ----------

  class AllowlistTable {
    var members: set<string>

    constructor ()
      ensures members == {}
    {
      members := {};
    }
  }

  class CachingRepositoryAllowlist {
    const table: AllowlistTable
    const cache: RedisClient
    const ttl: int

    constructor (table: AllowlistTable, cache: RedisClient)
      ensures this.table == table && this.cache == cache && this.ttl == 5 * 60
    {
      this.table, this.cache, this.ttl := table, cache, REPOSITORY_CACHE_TTL;
    }

    constructor WithTTL(table: AllowlistTable, cache: RedisClient, ttl: int)
      ensures this.table == table && this.cache == cache && this.ttl == ttl
    {
      this.table, this.cache, this.ttl := table, cache, ttl;
    }

    method SetCache(key: string, allowed: bool, f: Fault)
      modifies cache`entries
      ensures cache.entries == SetEntry(old(cache.entries), cache.now, key, Text(allowed), ttl, f)
    {
      var value := "false";
      if allowed {
        value := "true";
      }
      var _ := cache.Set(key, TextV(value), ttl, f);
    }

    method IsAllowed(repository: Repo, f: CallFaults) returns (r: Result<bool, Error>)
      modifies cache`entries
      ensures (cache.entries, r) == Ask(table.members, old(cache.entries), cache.now, ttl, repository.FullName(), f)
    {
      var key := OIDCGitHubRepoKey(repository.FullName());
      var cached := cache.Get(key, f.cacheRead);
      if cached.Ok? {
        return Ok(cached.value == TextV("true"));
      }
      if f.table != Fine || '\0' in repository.FullName() {
        return Err(StoreFailure);
      }
      var allowed := repository.FullName() in table.members;
      SetCache(key, allowed, f.cacheWrite);
      return Ok(allowed);
    }

    method AddRepository(repository: Repo, f: CallFaults) returns (r: Result<(), Error>)
      modifies table, cache`entries
      ensures (table.members, cache.entries, r) ==
              Add(old(table.members), old(cache.entries), cache.now, ttl, repository.FullName(), f)
    {
      var text := Column(repository.FullName());
      if f.table == Lost || text.None? {
        return Err(StoreFailure);
      }
      table.members := table.members + {text.value};
      if f.table != Fine {
        return Err(StoreFailure);
      }
      SetCache(OIDCGitHubRepoKey(repository.FullName()), true, f.cacheWrite);
      return Ok(());
    }

    method RemoveRepository(repository: Repo, f: CallFaults) returns (r: Result<(), Error>)
      modifies table, cache`entries
      ensures (table.members, cache.entries, r) == Remove(old(table.members), old(cache.entries),
                                                          repository.FullName(), f)
    {
      if f.table == Lost || '\0' in repository.FullName() {
        return Err(StoreFailure);
      }
      var affected := repository.FullName() in table.members;
      table.members := table.members - {repository.FullName()};
      if f.table != Fine {
        return Err(StoreFailure);
      }
      if !affected {
        assert old(table.members) - {repository.FullName()} == old(table.members);
        return Err(NotFound);
      }
      var _ := cache.Delete(OIDCGitHubRepoKey(repository.FullName()), f.cacheWrite);
      return Ok(());
    }
  }
}
