// What the caches are for: what one call has written or read answers the next ones without the table
// or the endpoint, for exactly the time to live; and nobody reads an answer that his own write has
// overtaken.

module Remembered {
  import opened Prelude
  import opened Domain
  import opened CacheKeys
  import opened RedisValues
  import opened Stores
  import opened Redis
  import opened ReadThrough
  import opened CacheCalls
  import Allowlist
  import Service
  import Jwks

  /** Redis answers, the table and the endpoint do not. */
  const ONLY_CACHE := Service.NO_FAULTS.(rowRead := Lost)
  const ONLY_ENTRIES := Allowlist.CallFaults(Fine, Lost, Fine)
  const NO_CALL_FAULTS := Allowlist.CallFaults(Fine, Fine, Fine)
  const NO_FETCH_FAULTS := Jwks.FetchFaults(Fine, Fine)

  /** An entry written now is what a client sees for exactly its time to live. */
  lemma EntryLives(entries: Entries, now: nat, key: string, v: Value, ttl: int, d: nat)
    ensures var live := Live(SetEntry(entries, now, key, v, ttl, Fine), now + d);
      (key in live <==> ttl <= 0 || d < ttl) && (key in live ==> live[key] == v)
  {
  }

  // ---------- metadata ----------

  /** A registered or updated record is found without the table for half an hour, and no longer. */
  lemma WrittenRecordsAreRemembered(s: Clockwork, a: Action, ttl: int, d: nat)
    requires (a.Save? || a.Update?) && a.g == Service.NO_FAULTS
    requires a.Save? <==> a.record.oid !in s.sources.rows
    ensures var s' := Act(Act(s, a, ttl), Wait(d), ttl); var found := Service.Find(Snapshot(s'), a.record.oid,
            ONLY_CACHE).1;
      && found == (if d < 30 * 60 then Ok(a.record) else Err(StoreFailure))
      && (Service.Exists(Snapshot(s'), a.record.oid, ONLY_CACHE) == Ok(true) <==> d < 30 * 60)
  {
    hide Live, SetEntry, MetadataKey, Reconstruct;
    EntryLives(s.entries, s.now, MetadataKey(a.record.oid), MetaV(a.record), METADATA_TTL, d);
  }

  /** So is a record that was looked up in the table. */
  lemma LookedUpRecordsAreRemembered(s: Clockwork, oid: string, ttl: int, d: nat)
    requires MetadataKey(oid) !in Live(s.entries, s.now) && FindRow(s.sources.rows, oid, Fine).Ok?
    ensures var s' := Act(Act(s, FindByOID(oid, Service.NO_FAULTS), ttl), Wait(d), ttl);
      Service.Find(Snapshot(s'), oid, ONLY_CACHE).1 ==
      if d < 30 * 60 then FindRow(s.sources.rows, oid, Fine) else Err(StoreFailure)
  {
    hide Live, SetEntry, MetadataKey, Reconstruct;
    var m := FindRow(s.sources.rows, oid, Fine).value;
    EntryLives(s.entries, s.now, MetadataKey(oid), MetaV(m), METADATA_TTL, d);
    ReconstructIsStable(s.sources.rows[oid]);
  }

  /** An entry that is no record, or one that does not read back, counts for nothing, and the lookup
      that comes across it replaces it by the row. */
  lemma BrokenEntriesAreRepaired(w: World, oid: string)
    requires MetadataKey(oid) in w.cache
    requires w.cache[MetadataKey(oid)].MetaV? ==> Reconstruct(w.cache[MetadataKey(oid)].meta).Err?
    ensures Service.Find(w, oid, Service.NO_FAULTS).1 == FindRow(w.rows, oid, Fine)
    ensures FindRow(w.rows, oid, Fine).Ok? ==>
              var w' := Service.Find(w, oid, Service.NO_FAULTS).0;
              Service.Find(w', oid, ONLY_CACHE) == (w', FindRow(w.rows, oid, Fine))
  {
    hide MetadataKey;
    if oid in w.rows {
      ReconstructIsStable(w.rows[oid]);
    }
  }

  /** An existence check is answered whenever Redis or the table answers, and by a cached record
      without the table. */
  lemma ExistenceIsAnswered(w: World, oid: string, f: Service.Faults)
    ensures Service.Exists(w, oid, f).Ok? <==>
            (f.cacheRead == Fine && MetadataKey(oid) in w.cache) || f.rowRead == Fine
    ensures Service.Exists(w, oid, f).Err? ==> Service.Exists(w, oid, f).error == StoreFailure
    ensures f.cacheRead == Fine && MetadataKey(oid) in w.cache ==> Service.Exists(w, oid, f) == Ok(true)
    ensures !(f.cacheRead == Fine && MetadataKey(oid) in w.cache) && f.rowRead == Fine ==>
              Service.Exists(w, oid, f) == Ok(oid in w.rows)
  {
  }

  // ---------- the allowlist ----------

  /** Whoever adds a repository reads that it is allowed, without the table for exactly the time to
      live; and whoever removes one reads that it is not, however long it was cached as allowed. */
  lemma AllowlistReadsItsWrites(s: Clockwork, repo: string, ttl: int, d: nat)
    requires Column(repo) == Some(repo)
    ensures var s' := Act(Act(s, AddRepository(repo, NO_CALL_FAULTS), ttl), Wait(d), ttl);
      && repo in s'.sources.allowlist
      && Allowlist.Ask(s'.sources.allowlist, s'.entries, s'.now, ttl, repo, NO_CALL_FAULTS).1 == Ok(true)
      && Allowlist.Ask(s'.sources.allowlist, s'.entries, s'.now, ttl, repo, ONLY_ENTRIES).1 ==
         if ttl <= 0 || d < ttl then Ok(true) else Err(StoreFailure)
    ensures repo in s.sources.allowlist ==>
              var s' := Act(Act(s, RemoveRepository(repo, NO_CALL_FAULTS), ttl), Wait(d), ttl);
              && repo !in s'.sources.allowlist
              && Allowlist.Ask(s'.sources.allowlist, s'.entries, s'.now, ttl, repo, NO_CALL_FAULTS).1 == Ok(false)
    ensures repo !in s.sources.allowlist ==>
              Allowlist.Remove(s.sources.allowlist, s.entries, repo, NO_CALL_FAULTS) ==
              (s.sources.allowlist, s.entries, Err(NotFound))
  {
    hide SetEntry, OIDCGitHubRepoKey, Live;
    EntryLives(s.entries, s.now, OIDCGitHubRepoKey(repo), Allowlist.Text(true), ttl, d);
    RemovedIsGone(s.entries, s.now + d, OIDCGitHubRepoKey(repo));
  }

  /** An edit of the allowlist that is not acknowledged leaves the cache alone, and the table as it is
      exactly if it was lost. */
  lemma FailedEditsLeaveTheCache(members: set<string>, entries: Entries, now: nat, ttl: int, repo: string,
                                 f: Allowlist.CallFaults)
    requires Column(repo) == Some(repo) && f.table != Fine
    ensures Allowlist.Add(members, entries, now, ttl, repo, f) ==
            (if f.table == Lost then members else members + {repo}, entries, Err(StoreFailure))
    ensures Allowlist.Remove(members, entries, repo, f) ==
            (if f.table == Lost then members else members - {repo}, entries, Err(StoreFailure))
  {
  }

  lemma RemovedIsGone(entries: Entries, now: nat, key: string)
    ensures key !in Live(RemoveEntry(entries, key, Fine), now)
  {
  }

  /** An answer from the table is repeated without it for exactly the time to live, yes or no. */
  lemma AnswersAreRemembered(s: Clockwork, repo: string, ttl: int, d: nat)
    requires OIDCGitHubRepoKey(repo) !in Live(s.entries, s.now) && '\0' !in repo
    ensures Allowlist.Ask(s.sources.allowlist, s.entries, s.now, ttl, repo, NO_CALL_FAULTS).1 ==
            Ok(repo in s.sources.allowlist)
    ensures var s' := Act(Act(s, IsAllowed(repo, NO_CALL_FAULTS), ttl), Wait(d), ttl);
      Allowlist.Ask(s'.sources.allowlist, s'.entries, s'.now, ttl, repo, ONLY_ENTRIES).1 ==
      if ttl <= 0 || d < ttl then Ok(repo in s.sources.allowlist) else Err(StoreFailure)
  {
    hide SetEntry, OIDCGitHubRepoKey, Live;
    EntryLives(s.entries, s.now, OIDCGitHubRepoKey(repo), Allowlist.Text(repo in s.sources.allowlist), ttl, d);
  }

  // ---------- key sets ----------

  /** A set that was fetched serves each of its keys without the endpoint for a day, and no longer. */
  lemma FetchedSetsAreRemembered(s: Clockwork, provider: string, keyID: string, other: string, ttl: int, d: nat)
    requires provider in s.sources.served
    requires Jwks.CachedSet(Live(s.entries, s.now), provider, Fine).None?
    ensures var s' := Act(Act(s, GetPublicKey(provider, keyID, true, NO_FETCH_FAULTS), ttl), Wait(d), ttl);
      var r := Jwks.GetPublicKey(s'.entries, s'.now, provider, other, None, NO_FETCH_FAULTS).1;
      r.Ok? <==> d < 24 * 60 * 60 && exists key :: Jwks.Serves(s.sources.served[provider], other, key)
    ensures var s' := Act(Act(s, GetPublicKey(provider, keyID, true, NO_FETCH_FAULTS), ttl), Wait(d), ttl);
      var r := Jwks.GetPublicKey(s'.entries, s'.now, provider, other, None, NO_FETCH_FAULTS).1;
      r.Ok? ==> Jwks.Serves(s.sources.served[provider], other, r.value)
  {
    hide SetEntry, Live, OIDCJWKSKey, Jwks.FindPublicKey, Jwks.Serves;
    var keySet := s.sources.served[provider];
    EntryLives(s.entries, s.now, OIDCJWKSKey(provider), JwksV(keySet), JWKS_TTL, d);
    forall key: Jwks.PublicKey
      ensures Jwks.FindPublicKey(keySet.keys, other) == Ok(key) <==> Jwks.Serves(keySet, other, key)
    {
      Jwks.FoundExactlyWhenServed(keySet, other, key);
    }
    var found := Jwks.FindPublicKey(keySet.keys, other);
    if found.Ok? {
      assert Jwks.Serves(keySet, other, found.value);
    }
  }
}
