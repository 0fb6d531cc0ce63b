// Runs of atomic calls on the three caches together, and how old their answers can be.

module CacheCalls {
  import opened Prelude
  import opened Domain
  import opened CacheKeys
  import opened RedisValues
  import opened Stores
  import opened Redis
  import opened ReadThrough
  import Allowlist
  import Service
  import Jwks

  /** A record that went through the constructors of the domain. */
  type DomainRecord = m: Meta | Reconstruct(m) == Ok(m)
    witness Meta(seq(64, _ => '0'), 0, "sha256", "k", false)

  /** A call on one of the caches, or what happens between calls: time passes, somebody edits the
      tables or rotates the keys, Redis evicts an entry, other keys are written. */
  datatype Action =
    | IsAllowed(repo: string, f: Allowlist.CallFaults)
    | AddRepository(repo: string, f: Allowlist.CallFaults)
    | RemoveRepository(repo: string, f: Allowlist.CallFaults)
    | FindByOID(oid: string, g: Service.Faults)
    | Save(record: DomainRecord, g: Service.Faults)
    | Update(record: DomainRecord, g: Service.Faults)
    | GetPublicKey(provider: string, keyID: string, reachable: bool, h: Jwks.FetchFaults)
    | Wait(seconds: nat)
    | Outside(sources: Sources)
    | Evict(key: string)
    | Other(family: Family, name: string, value: Value, ttl: int)

  // ---------- what each call does ----------

  /** The stores as the repository of objects sees them now. */
  function Snapshot(s: Clockwork): World {
    World(s.sources.rows, map[], Live(s.entries, s.now), map[])
  }

  /** What the provider's endpoint answers. */
  function Fetched(s: Clockwork, provider: string, reachable: bool): Option<JWKSet> {
    if reachable && provider in s.sources.served then Some(s.sources.served[provider]) else None
  }

  function Edited(s: Clockwork, sources: Sources): Clockwork {
    s.(sources := sources, past := s.past + [Moment(s.now, sources)])
  }

  function Cached(s: Clockwork, m: Meta, f: Fault): Clockwork {
    s.(entries := SetEntry(s.entries, s.now, MetadataKey(m.oid), MetaV(m), METADATA_TTL, f))
  }

  function Act(s: Clockwork, a: Action, ttl: int): Clockwork {
    match a
    case IsAllowed(repo, f) => s.(entries := Allowlist.Ask(s.sources.allowlist, s.entries, s.now, ttl, repo, f).0)
    case AddRepository(repo, f) =>
      var (members, entries, _) := Allowlist.Add(s.sources.allowlist, s.entries, s.now, ttl, repo, f);
      Edited(s, s.sources.(allowlist := members)).(entries := entries)
    case RemoveRepository(repo, f) =>
      var (members, entries, _) := Allowlist.Remove(s.sources.allowlist, s.entries, repo, f);
      Edited(s, s.sources.(allowlist := members)).(entries := entries)
    case FindByOID(oid, g) =>
      if ReadCache(Live(s.entries, s.now), oid, g.cacheRead).Some? ||
        FindRow(s.sources.rows, oid, g.rowRead).Err? then s
      else s.(entries := SetEntry(s.entries, s.now, MetadataKey(oid),
                                  MetaV(FindRow(s.sources.rows, oid, g.rowRead).value), METADATA_TTL, g.readFill))
    case Save(m, g) =>
      var (rows, r) := InsertRow(s.sources.rows, m, g.write);
      var s1 := Edited(s, s.sources.(rows := rows));
      if r.Ok? then Cached(s1, m, g.writeFill) else s1
    case Update(m, g) =>
      var (rows, r) := UpdateRow(s.sources.rows, m, g.write);
      var s1 := Edited(s, s.sources.(rows := rows));
      if r.Ok? then Cached(s1, m, g.writeFill) else s1
    case GetPublicKey(provider, keyID, reachable, h) =>
      s.(entries := Jwks.GetPublicKey(s.entries, s.now, provider, keyID, Fetched(s, provider, reachable), h).0)
    case Wait(d) => Exec(s, Tick(d), ttl)
    case Outside(sources) => Edited(s, sources)
    case Evict(key) => s.(entries := s.entries - {key})
    case Other(family, name, v, d) => Exec(s, Foreign(family, name, v, d), ttl)
  }

  /** For the metadata calls that is what the repository's operations do to the stores. */
  lemma MetadataCallsAreTheRepository(s: Clockwork, a: Action, ttl: int)
    requires a.FindByOID? || a.Save? || a.Update?
    ensures Snapshot(Act(s, a, ttl)) ==
            match a
            case FindByOID(oid, g) => Service.Find(Snapshot(s), oid, g).0
            case Save(m, g) => Service.Save(Snapshot(s), m, g).0
            case Update(m, g) => Service.Update(Snapshot(s), m, g).0
            case _ => Snapshot(s)
  {
    hide MetadataKey, Live, SetEntry;
    match a {
      case FindByOID(oid, g) =>
        var found := FindRow(s.sources.rows, oid, g.rowRead);
        if found.Ok? {
          LiveAfterWrites(s.entries, s.now, MetadataKey(oid), MetaV(found.value), METADATA_TTL, g.readFill);
        }
      case Save(m, g) => LiveAfterWrites(s.entries, s.now, MetadataKey(m.oid), MetaV(m), METADATA_TTL, g.writeFill);
      case Update(m, g) => LiveAfterWrites(s.entries, s.now, MetadataKey(m.oid), MetaV(m), METADATA_TTL, g.writeFill);
    }
  }

  function ActAll(s: Clockwork, actions: seq<Action>, ttl: int): Clockwork
    decreases |actions|
  {
    if actions == [] then s else ActAll(Act(s, actions[0], ttl), actions[1..], ttl)
  }

  // ---------- calls as runs of the read-through machine ----------

  /** An edit of the source, and then the cache write if the call got that far. */
  function EditThen(sources: Sources, more: bool, rest: seq<Event>): seq<Event> {
    [Edit(sources)] + (if more then rest else [])
  }

  /** The cache write of a membership: of what was just read from the table, or, for a name the
      column cuts off, of an entry that stands for no row. */
  function Remember(repo: string, allowed: bool, ttl: int, f: Fault): seq<Event> {
    if !CutOff(repo) then ObserveAndFill(GitHubRepo, repo, f)
    else if f == Lost then [] else [Foreign(GitHubRepo, repo, Allowlist.Text(allowed), ttl)] + []
  }

  function Calls(s: Clockwork, a: Action, ttl: int): seq<Event> {
    match a
    case IsAllowed(repo, f) =>
      if (f.cacheRead == Fine && OIDCGitHubRepoKey(repo) in Live(s.entries, s.now)) || f.table != Fine ||
        '\0' in repo then []
      else Remember(repo, repo in s.sources.allowlist, ttl, f.cacheWrite)
    case AddRepository(repo, f) =>
      EditThen(s.sources.(allowlist := Allowlist.Add(s.sources.allowlist, s.entries, s.now, 0, repo, f).0),
               f.table == Fine && Column(repo).Some?, Remember(repo, true, ttl, f.cacheWrite))
    case RemoveRepository(repo, f) =>
      EditThen(s.sources.(allowlist := Allowlist.Remove(s.sources.allowlist, s.entries, repo, f).0),
               f.table == Fine && '\0' !in repo && repo in s.sources.allowlist && f.cacheWrite != Lost,
               [Drop(OIDCGitHubRepoKey(repo))] + [])
    case FindByOID(oid, g) =>
      if ReadCache(Live(s.entries, s.now), oid, g.cacheRead).Some? ||
        FindRow(s.sources.rows, oid, g.rowRead).Err? then []
      else ObserveAndFill(Metadata, oid, g.readFill)
    case Save(m, g) =>
      var (rows, r) := InsertRow(s.sources.rows, m, g.write);
      EditThen(s.sources.(rows := rows), r.Ok?, ObserveAndFill(Metadata, m.oid, g.writeFill))
    case Update(m, g) =>
      var (rows, r) := UpdateRow(s.sources.rows, m, g.write);
      EditThen(s.sources.(rows := rows), r.Ok?, ObserveAndFill(Metadata, m.oid, g.writeFill))
    case GetPublicKey(provider, keyID, reachable, h) =>
      var cached := Jwks.CachedSet(Live(s.entries, s.now), provider, h.cacheRead);
      if (cached.Some? && Jwks.FindPublicKey(cached.value.keys, keyID).Ok?) ||
        Fetched(s, provider, reachable).None? then []
      else ObserveAndFill(Jwks, provider, h.cacheWrite)
    case Wait(d) => [Tick(d)] + []
    case Outside(sources) => [Edit(sources)] + []
    case Evict(key) => [Drop(key)] + []
    case Other(family, name, v, d) => [Foreign(family, name, v, d)] + []
  }

  /** What has to hold of a call and the store calls it is made of. */
  ghost predicate IsRun(s: Clockwork, a: Action, ttl: int) {
    Act(s, a, ttl) == Run(s, Calls(s, a, ttl), ttl) && Prompt(s, Calls(s, a, ttl), ttl, 0) &&
    Act(s, a, ttl).pending == map[]
  }

  lemma EditThenFill(s: Clockwork, sources: Sources, more: bool, family: Family, name: string, f: Fault, ttl: int)
    requires s.pending == map[] && Tracked(family, name) && (more ==> Truth(sources, family, name).Some?)
    ensures var events := EditThen(sources, more, ObserveAndFill(family, name, f));
      && Prompt(s, events, ttl, 0)
      && Run(s, events, ttl) ==
         if more then
           Edited(s, sources).(entries := SetEntry(s.entries, s.now, Key(family, name),
                                                   Truth(sources, family, name).value, Ttl(family, ttl), f))
         else Edited(s, sources)
  {
    hide Truth, Key, SetEntry, ObserveAndFill;
    RunNext(s, Edit(sources), if more then ObserveAndFill(family, name, f) else [], ttl, 0);
    if more {
      ObserveAndFillWrites(Edited(s, sources), family, name, f, ttl);
    }
  }

  /** What remembering a membership does, right after the table says the same. */
  lemma RememberWrites(s: Clockwork, repo: string, ttl: int, f: Fault)
    requires s.pending == map[]
    ensures var allowed := repo in s.sources.allowlist;
      && Prompt(s, Remember(repo, allowed, ttl, f), ttl, 0)
      && Run(s, Remember(repo, allowed, ttl, f), ttl) ==
         s.(entries := SetEntry(s.entries, s.now, OIDCGitHubRepoKey(repo), Allowlist.Text(allowed), ttl, f))
  {
    hide OIDCGitHubRepoKey, ObserveAndFill, CutOff;
    if !CutOff(repo) {
      ObserveAndFillWrites(s, GitHubRepo, repo, f, ttl);
    } else {
      RememberOutside(s, repo, repo in s.sources.allowlist, ttl, f);
    }
  }

  lemma RememberOutside(s: Clockwork, repo: string, allowed: bool, ttl: int, f: Fault)
    requires CutOff(repo)
    ensures Prompt(s, Remember(repo, allowed, ttl, f), ttl, 0)
    ensures Run(s, Remember(repo, allowed, ttl, f), ttl) ==
            s.(entries := SetEntry(s.entries, s.now, OIDCGitHubRepoKey(repo), Allowlist.Text(allowed), ttl, f))
  {
    hide OIDCGitHubRepoKey, CutOff;
    if f != Lost {
      RunNext(s, Foreign(GitHubRepo, repo, Allowlist.Text(allowed), ttl), [], ttl, 0);
    }
  }

  lemma AddIsARun(s: Clockwork, repo: string, f: Allowlist.CallFaults, ttl: int)
    requires s.pending == map[]
    ensures IsRun(s, AddRepository(repo, f), ttl)
  {
    hide OIDCGitHubRepoKey, SetEntry, Remember, CutOff, Column;
    var sources := s.sources.(allowlist := Allowlist.Add(s.sources.allowlist, s.entries, s.now, ttl, repo, f).0);
    var more := f.table == Fine && Column(repo).Some?;
    RunNext(s, Edit(sources), if more then Remember(repo, true, ttl, f.cacheWrite) else [], ttl, 0);
    if more && CutOff(repo) {
      RememberOutside(Edited(s, sources), repo, true, ttl, f.cacheWrite);
    } else if more {
      StoredAsItIs(repo);
      RememberWrites(Edited(s, sources), repo, ttl, f.cacheWrite);
    }
  }

  lemma StoredAsItIs(repo: string)
    ensures Column(repo).Some? && !CutOff(repo) ==> Column(repo) == Some(repo)
  {
  }

  lemma AllowlistCallsAreRuns(s: Clockwork, a: Action, ttl: int)
    requires s.pending == map[] && (a.IsAllowed? || a.AddRepository? || a.RemoveRepository?)
    ensures IsRun(s, a, ttl)
  {
    hide OIDCGitHubRepoKey, SetEntry, Live, Remember;
    var members := s.sources.allowlist;
    match a {
      case IsAllowed(repo, f) => RememberWrites(s, repo, ttl, f.cacheWrite);
      case AddRepository(repo, f) => AddIsARun(s, repo, f, ttl);
      case RemoveRepository(repo, f) =>
        var sources := s.sources.(allowlist := Allowlist.Remove(members, s.entries, repo, f).0);
        var d := Drop(OIDCGitHubRepoKey(repo));
        var more := f.table == Fine && '\0' !in repo && repo in members && f.cacheWrite != Lost;
        RunNext(s, Edit(sources), if more then [d] + [] else [], ttl, 0);
        RunNext(Edited(s, sources), d, [], ttl, 0);
    }
  }

  lemma MetadataCallsAreRuns(s: Clockwork, a: Action, ttl: int)
    requires s.pending == map[] && (a.FindByOID? || a.Save? || a.Update?)
    ensures IsRun(s, a, ttl)
  {
    hide MetadataKey, SetEntry, Live, ObserveAndFill, Reconstruct, ReadCache;
    match a {
      case FindByOID(oid, g) =>
        if FindRow(s.sources.rows, oid, g.rowRead).Ok? {
          ObserveAndFillWrites(s, Metadata, oid, g.readFill, ttl);
        }
      case Save(m, g) =>
        var (rows, r) := InsertRow(s.sources.rows, m, g.write);
        EditThenFill(s, s.sources.(rows := rows), r.Ok?, Metadata, m.oid, g.writeFill, ttl);
      case Update(m, g) =>
        var (rows, r) := UpdateRow(s.sources.rows, m, g.write);
        EditThenFill(s, s.sources.(rows := rows), r.Ok?, Metadata, m.oid, g.writeFill, ttl);
    }
  }

  /** Every call is a sequence of store calls with no time between them. */
  lemma CallsAreRuns(s: Clockwork, a: Action, ttl: int)
    requires s.pending == map[]
    ensures IsRun(s, a, ttl)
  {
    hide OIDCJWKSKey, SetEntry, Live, ObserveAndFill, Jwks.FindPublicKey;
    match a {
      case GetPublicKey(provider, keyID, reachable, h) =>
        if Fetched(s, provider, reachable).Some? {
          ObserveAndFillWrites(s, Family.Jwks, provider, h.cacheWrite, ttl);
        }
      case Wait(d) => RunNext(s, Tick(d), [], ttl, 0);
      case Outside(sources) => RunNext(s, Edit(sources), [], ttl, 0);
      case Evict(key) => RunNext(s, Drop(key), [], ttl, 0);
      case Other(family, name, v, d) => RunNext(s, Foreign(family, name, v, d), [], ttl, 0);
      case _ =>
        if a.FindByOID? || a.Save? || a.Update? {
          MetadataCallsAreRuns(s, a, ttl);
        } else {
          AllowlistCallsAreRuns(s, a, ttl);
        }
    }
  }

  lemma {:induction false} CallsOfAll(s: Clockwork, actions: seq<Action>, ttl: int) returns (events: seq<Event>)
    requires s.pending == map[]
    ensures ActAll(s, actions, ttl) == Run(s, events, ttl) && Prompt(s, events, ttl, 0)
    decreases |actions|
  {
    hide Act, Exec, Calls;
    events := [];
    if actions != [] {
      CallsAreRuns(s, actions[0], ttl);
      var rest := CallsOfAll(Act(s, actions[0], ttl), actions[1..], ttl);
      events := Calls(s, actions[0], ttl) + rest;
      RunAppend(s, Calls(s, actions[0], ttl), rest, ttl);
    }
  }

  // ---------- the age of an answer ----------

  /** A cached value, or what the source says now, is the truth of some moment within the bound. */
  lemma AnswersWereTrue(now: nat, sources: Sources, events: seq<Event>, ttl: int, latency: nat, family: Family,
                        name: string)
    requires Ttl(family, ttl) > 0 && Tracked(family, name) && Prompt(Begin(now, sources), events, ttl, latency)
    ensures var s := Run(Begin(now, sources), events, ttl);
      && (Key(family, name) in Live(s.entries, s.now) ==>
          SaidWithin(s, family, name, Live(s.entries, s.now)[Key(family, name)], Ttl(family, ttl) + latency))
      && (Truth(s.sources, family, name).Some? ==>
          SaidWithin(s, family, name, Truth(s.sources, family, name).value, Ttl(family, ttl) + latency))
  {
    CachedValuesAreRecent(now, sources, events, ttl, latency, family, name);
    DirectReadsAreCurrent(now, sources, events, ttl, family, name, Ttl(family, ttl) + latency);
  }

  /** A moment of the past less than `age` ago, or now. */
  predicate Recent(s: Clockwork, i: nat, age: int) {
    i < |s.past| && s.past[i].time <= s.now && (s.now < s.past[i].time + age || s.now == s.past[i].time)
  }

  /** The repository was a member (or not) at a recent moment. */
  ghost predicate MemberWithin(s: Clockwork, repo: string, answer: bool, age: int) {
    exists i: nat :: Recent(s, i, age) && (repo in s.past[i].sources.allowlist) == answer
  }

  /** The row of the object read like this at a recent moment. */
  ghost predicate RowWithin(s: Clockwork, oid: string, m: Meta, age: int) {
    exists i: nat :: Recent(s, i, age) && oid in s.past[i].sources.rows &&
                     Reconstruct(s.past[i].sources.rows[oid]) == Ok(m)
  }

  ghost predicate ExistedWithin(s: Clockwork, oid: string, answer: bool, age: int) {
    exists i: nat :: Recent(s, i, age) && (oid in s.past[i].sources.rows) == answer
  }

  /** The endpoint served this key under this id at a recent moment. */
  ghost predicate ServedWithin(s: Clockwork, provider: string, keyID: string, key: Jwks.PublicKey, age: int) {
    exists i: nat :: Recent(s, i, age) && provider in s.past[i].sources.served &&
                     Jwks.Serves(s.past[i].sources.served[provider], keyID, key)
  }

  lemma SaidMoment(s: Clockwork, family: Family, name: string, v: Value, age: int) returns (i: nat)
    requires SaidWithin(s, family, name, v, age)
    ensures Recent(s, i, age) && Truth(s.past[i].sources, family, name) == Some(v)
  {
    i :| 0 <= i < |s.past| && s.past[i].time <= s.now && (s.now < s.past[i].time + age || s.now == s.past[i].time) &&
         Truth(s.past[i].sources, family, name) == Some(v);
  }

  /** In every run of the read-through machine, interleaved or not, an answer of IsAllowed is the
      membership of less than one TTL plus the longest time in flight ago. */
  lemma AllowlistAnswersAreRecent(now: nat, sources: Sources, events: seq<Event>, ttl: int, latency: nat, repo: string,
                                  f: Allowlist.CallFaults)
    requires ttl > 0 && !CutOff(repo) && Prompt(Begin(now, sources), events, ttl, latency)
    ensures var s := Run(Begin(now, sources), events, ttl);
      var r := Allowlist.Ask(s.sources.allowlist, s.entries, s.now, ttl, repo, f).1;
      r.Ok? ==> MemberWithin(s, repo, r.value, ttl + latency)
  {
    hide Live, SetEntry, Exec, OIDCGitHubRepoKey;
    var s := Run(Begin(now, sources), events, ttl);
    AnswersWereTrue(now, sources, events, ttl, latency, GitHubRepo, repo);
    var key := Key(GitHubRepo, repo);
    assert key == OIDCGitHubRepoKey(repo);
    if f.cacheRead == Fine && key in Live(s.entries, s.now) {
      var _ := SaidMoment(s, GitHubRepo, repo, Live(s.entries, s.now)[key], ttl + latency);
    } else {
      var _ := SaidMoment(s, GitHubRepo, repo, Truth(s.sources, GitHubRepo, repo).value, ttl + latency);
    }
  }

  /** And a lookup of metadata is a read of the row less than 30 minutes plus that time ago; so is
      an existence check. */
  lemma MetadataAnswersAreRecent(now: nat, sources: Sources, events: seq<Event>, ttl: int, latency: nat, oid: string,
                                 g: Service.Faults)
    requires Prompt(Begin(now, sources), events, ttl, latency)
    ensures var s := Run(Begin(now, sources), events, ttl);
      var found := Service.Find(Snapshot(s), oid, g).1;
      var existence := Service.Exists(Snapshot(s), oid, g);
      && (found.Ok? ==> RowWithin(s, oid, found.value, METADATA_TTL + latency))
      && (existence.Ok? ==> ExistedWithin(s, oid, existence.value, METADATA_TTL + latency))
  {
    hide Live, SetEntry, Exec, MetadataKey;
    var s := Run(Begin(now, sources), events, ttl);
    var age := METADATA_TTL + latency;
    AnswersWereTrue(now, sources, events, ttl, latency, Metadata, oid);
    PastIsKept(Begin(now, sources), events, ttl);
    assert Recent(s, |s.past| - 1, age) && s.past[|s.past| - 1].sources == s.sources;
    var key := Key(Metadata, oid);
    assert key == MetadataKey(oid);
    if g.cacheRead == Fine && key in Live(s.entries, s.now) {
      var i := SaidMoment(s, Metadata, oid, Live(s.entries, s.now)[key], age);
      ReconstructIsStable(s.past[i].sources.rows[oid]);
    }
  }

  lemma ReconstructIsStable(m: Meta)
    ensures Reconstruct(m).Ok? ==> Reconstruct(Reconstruct(m).value) == Reconstruct(m)
  {
  }

  /** And a public key was served by its endpoint less than a day plus that time ago. */
  lemma KeysAreRecent(now: nat, sources: Sources, events: seq<Event>, ttl: int, latency: nat, provider: string,
                      keyID: string,
                      reachable: bool, h: Jwks.FetchFaults)
    requires Prompt(Begin(now, sources), events, ttl, latency)
    ensures var s := Run(Begin(now, sources), events, ttl);
      var r := Jwks.GetPublicKey(s.entries, s.now, provider, keyID, Fetched(s, provider, reachable), h).1;
      r.Ok? ==> ServedWithin(s, provider, keyID, r.value, JWKS_TTL + latency)
  {
    hide Live, SetEntry, Exec, OIDCJWKSKey, Jwks.FindPublicKey, Jwks.Serves;
    var s := Run(Begin(now, sources), events, ttl);
    var age := JWKS_TTL + latency;
    AnswersWereTrue(now, sources, events, ttl, latency, Family.Jwks, provider);
    var cached := Jwks.CachedSet(Live(s.entries, s.now), provider, h.cacheRead);
    assert Key(Family.Jwks, provider) == OIDCJWKSKey(provider);
    var r := Jwks.GetPublicKey(s.entries, s.now, provider, keyID, Fetched(s, provider, reachable), h).1;
    if cached.Some? && Jwks.FindPublicKey(cached.value.keys, keyID).Ok? {
      var _ := SaidMoment(s, Family.Jwks, provider, JwksV(cached.value), age);
      Jwks.FoundExactlyWhenServed(cached.value, keyID, r.value);
    } else if r.Ok? {
      var keySet := s.sources.served[provider];
      var _ := SaidMoment(s, Family.Jwks, provider, JwksV(keySet), age);
      Jwks.FoundExactlyWhenServed(keySet, keyID, r.value);
    }
  }

  /** Bounded staleness with atomic calls: whatever calls fail, whatever is evicted, and whoever edits
      the tables, a record FindByOID returns is the row of some moment less than 30 minutes ago, a key
      GetPublicKey returns was served less than a day ago, and with a positive time to live an answer
      of IsAllowed is the membership of some moment less than that ago. */
  lemma StalenessIsBounded(now: nat, sources: Sources, actions: seq<Action>, ttl: int)
    ensures var s := ActAll(Begin(now, sources), actions, ttl);
      && (ttl > 0 ==> forall repo, f :: !CutOff(repo) ==>
            var r := Allowlist.Ask(s.sources.allowlist, s.entries, s.now, ttl, repo, f).1;
            r.Ok? ==> MemberWithin(s, repo, r.value, ttl))
      && (forall oid, g ::
            var r := Service.Find(Snapshot(s), oid, g).1; r.Ok? ==> RowWithin(s, oid, r.value, METADATA_TTL))
      && (forall provider, keyID, reachable, h ::
            var r := Jwks.GetPublicKey(s.entries, s.now, provider, keyID, Fetched(s, provider, reachable), h).1;
            r.Ok? ==> ServedWithin(s, provider, keyID, r.value, JWKS_TTL))
  {
    hide Live, SetEntry, Exec, ActAll, MemberWithin, RowWithin, ServedWithin, Allowlist.Ask, Service.Find,
         Jwks.GetPublicKey, CutOff;
    var events := CallsOfAll(Begin(now, sources), actions, ttl);
    var s := ActAll(Begin(now, sources), actions, ttl);
    if ttl > 0 {
      forall repo, f | !CutOff(repo)
        ensures var r := Allowlist.Ask(s.sources.allowlist, s.entries, s.now, ttl, repo, f).1;
          r.Ok? ==> MemberWithin(s, repo, r.value, ttl)
      {
        AllowlistAnswersAreRecent(now, sources, events, ttl, 0, repo, f);
      }
    }
    forall oid, g
      ensures var r := Service.Find(Snapshot(s), oid, g).1; r.Ok? ==> RowWithin(s, oid, r.value, METADATA_TTL)
    {
      MetadataAnswersAreRecent(now, sources, events, ttl, 0, oid, g);
    }
    forall provider, keyID, reachable, h
      ensures var r := Jwks.GetPublicKey(s.entries, s.now, provider, keyID, Fetched(s, provider, reachable), h).1;
        r.Ok? ==> ServedWithin(s, provider, keyID, r.value, JWKS_TTL)
    {
      KeysAreRecent(now, sources, events, ttl, 0, provider, keyID, reachable, h);
    }
  }

  // ---------- when the allowlist's answers are older ----------

  const ALL_FINE := Allowlist.CallFaults(Fine, Fine, Fine)
  const NOTHING := Sources({}, map[], map[])

  /** Add a repository, lose the cache delete of its removal, and wait. */
  function AddRemoveWait(repo: string, seconds: nat): seq<Action> {
    [AddRepository(repo, ALL_FINE), RemoveRepository(repo, Allowlist.CallFaults(Fine, Fine, Lost)), Wait(seconds)]
  }

  lemma ActThree(s: Clockwork, a: Action, b: Action, c: Action, ttl: int)
    ensures ActAll(s, [a, b, c], ttl) == Act(Act(Act(s, a, ttl), b, ttl), c, ttl)
  {
    hide Act;
    assert [a, b, c][1..] == [b, c] && [b, c][1..] == [c] && [c][1..] == [];
    var s2 := Act(Act(s, a, ttl), b, ttl);
    assert ActAll(s2, [c], ttl) == Act(s2, c, ttl);
    assert ActAll(Act(s, a, ttl), [b, c], ttl) == ActAll(s2, [c], ttl);
  }

  /** With a time to live that is not positive entries never expire: any number of seconds after the
      removal the answer is still yes, although the repository has not been a member at any later
      moment. */
  lemma ZeroTtlNeverForgets(repo: string, seconds: nat, ttl: int)
    requires seconds > 0 && ttl <= 0 && Column(repo) == Some(repo)
    ensures var s := ActAll(Begin(0, NOTHING), AddRemoveWait(repo, seconds), ttl);
      Allowlist.Ask(s.sources.allowlist, s.entries, s.now, ttl, repo, ALL_FINE).1 == Ok(true) &&
      !MemberWithin(s, repo, true, seconds)
  {
    hide OIDCGitHubRepoKey, Column;
    assert '\0' !in repo by { ColumnCases(repo); }
    var s0 := Begin(0, NOTHING);
    var actions := AddRemoveWait(repo, seconds);
    var s1 := Act(s0, actions[0], ttl);
    var s2 := Act(s1, actions[1], ttl);
    var s3 := Act(s2, actions[2], ttl);
    ActThree(s0, actions[0], actions[1], actions[2], ttl);
    assert s1.sources.allowlist == {repo} && s2.sources.allowlist == {};
    assert s3.past == [Moment(0, s0.sources), Moment(0, s1.sources), Moment(0, s2.sources),
                       Moment(seconds, s2.sources)];
  }

  /** Whatever the name, an answer that is cached for good outlives a change of the table. */
  function AskEditWait(repo: string): seq<Action> {
    [IsAllowed(repo, ALL_FINE), Outside(NOTHING.(allowlist := {repo})), Wait(1)]
  }

  lemma AnswersCachedForGood(repo: string, ttl: int)
    requires ttl <= 0 && '\0' !in repo
    ensures var s := ActAll(Begin(0, NOTHING), AskEditWait(repo), ttl);
      Allowlist.Ask(s.sources.allowlist, s.entries, s.now, ttl, repo, ALL_FINE).1 == Ok(false) &&
      !MemberWithin(s, repo, false, ttl)
  {
    hide OIDCGitHubRepoKey;
    var s0 := Begin(0, NOTHING);
    var actions := AskEditWait(repo);
    var s1 := Act(s0, actions[0], ttl);
    var s2 := Act(s1, actions[1], ttl);
    var s3 := Act(s2, actions[2], ttl);
    ActThree(s0, actions[0], actions[1], actions[2], ttl);
    assert s3.past == [Moment(0, s0.sources), Moment(0, s2.sources), Moment(1, s2.sources)];
  }

  /** A name the column cuts off is added under another name, but cached as it is: IsAllowed says yes
      to a repository that was never a member. */
  lemma CutOffNamesAreAllowed(repo: string, ttl: int)
    requires CutOff(repo)
    ensures var s := ActAll(Begin(0, NOTHING), [AddRepository(repo, ALL_FINE)], ttl);
      Allowlist.Ask(s.sources.allowlist, s.entries, s.now, ttl, repo, ALL_FINE).1 == Ok(true) &&
      !MemberWithin(s, repo, true, ttl)
  {
    hide OIDCGitHubRepoKey, Column;
    var s0 := Begin(0, NOTHING);
    var a := AddRepository(repo, ALL_FINE);
    var s1 := Act(s0, a, ttl);
    assert [a][1..] == [] && ActAll(s0, [a], ttl) == s1;
    assert s1.past == [Moment(0, s0.sources), Moment(0, s1.sources)];
    assert s1.sources.allowlist == {Column(repo).value};
  }

  /** A name with a NUL gets no answer at all: the table refuses it, so nothing is ever cached. */
  lemma {:induction false} NulIsNeverCached(s: Clockwork, actions: seq<Action>, ttl: int, repo: string)
    requires '\0' in repo && OIDCGitHubRepoKey(repo) !in s.entries
    ensures OIDCGitHubRepoKey(repo) !in ActAll(s, actions, ttl).entries
    decreases |actions|
  {
    hide Act, OIDCGitHubRepoKey;
    if actions != [] {
      NulIsNotCached(s, actions[0], ttl, repo);
      NulIsNeverCached(Act(s, actions[0], ttl), actions[1..], ttl, repo);
    }
  }

  lemma NulIsNotCached(s: Clockwork, a: Action, ttl: int, repo: string)
    requires '\0' in repo && OIDCGitHubRepoKey(repo) !in s.entries
    ensures OIDCGitHubRepoKey(repo) !in Act(s, a, ttl).entries
  {
    hide OIDCGitHubRepoKey, MetadataKey, OIDCJWKSKey, Live;
    assert Key(GitHubRepo, repo) == OIDCGitHubRepoKey(repo);
    assert Column(repo) == None;
    match a {
      case IsAllowed(r, _) => KeysInjective(GitHubRepo, repo, GitHubRepo, r);
      case AddRepository(r, _) => KeysInjective(GitHubRepo, repo, GitHubRepo, r);
      case FindByOID(oid, _) => KeysInjective(GitHubRepo, repo, Metadata, oid);
      case Save(m, _) => KeysInjective(GitHubRepo, repo, Metadata, m.oid);
      case Update(m, _) => KeysInjective(GitHubRepo, repo, Metadata, m.oid);
      case GetPublicKey(provider, _, _, _) => KeysInjective(GitHubRepo, repo, Family.Jwks, provider);
      case Other(family, name, _, _) => KeysInjective(GitHubRepo, repo, family, name);
      case _ =>
    }
  }

  ghost predicate AlwaysRecent(ttl: int, repo: string) {
    forall now, sources, actions, f ::
      var s := ActAll(Begin(now, sources), actions, ttl);
      var r := Allowlist.Ask(s.sources.allowlist, s.entries, s.now, ttl, repo, f).1;
      r.Ok? ==> MemberWithin(s, repo, r.value, ttl)
  }

  /** The times to live and the names for which the allowlist's answers are never older than the time
      to live: the positive ones, and the names the column does not cut off. (A name with a NUL is
      never answered for.) */
  lemma StalenessIsBoundedExactlyWhen(ttl: int, repo: string)
    ensures AlwaysRecent(ttl, repo) <==> (ttl > 0 && !CutOff(repo)) || '\0' in repo
  {
    hide Act, MemberWithin, ActAll, Allowlist.Ask, CutOff;
    if ttl > 0 && !CutOff(repo) {
      forall now, sources, actions, f
        ensures var s := ActAll(Begin(now, sources), actions, ttl);
          var r := Allowlist.Ask(s.sources.allowlist, s.entries, s.now, ttl, repo, f).1;
          r.Ok? ==> MemberWithin(s, repo, r.value, ttl)
      {
        StalenessIsBounded(now, sources, actions, ttl);
      }
    } else if '\0' in repo {
      forall now, sources, actions, f
        ensures var s := ActAll(Begin(now, sources), actions, ttl);
          Allowlist.Ask(s.sources.allowlist, s.entries, s.now, ttl, repo, f).1.Err?
      {
        NulIsNeverCached(Begin(now, sources), actions, ttl, repo);
        NulIsNotAnswered(ActAll(Begin(now, sources), actions, ttl), ttl, repo, f);
      }
    } else if ttl <= 0 {
      AnswersCachedForGood(repo, ttl);
    } else {
      CutOffNamesAreAllowed(repo, ttl);
    }
  }

  lemma NulIsNotAnswered(s: Clockwork, ttl: int, repo: string, f: Allowlist.CallFaults)
    requires '\0' in repo && OIDCGitHubRepoKey(repo) !in s.entries
    ensures Allowlist.Ask(s.sources.allowlist, s.entries, s.now, ttl, repo, f).1.Err?
  {
  }
}
