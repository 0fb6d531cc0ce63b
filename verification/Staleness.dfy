// The three read-through caches over time: object metadata, allowlist membership and JWK sets, all
// in the one flat Redis key space, in front of tables anybody may edit at any time.

module ReadThrough {
  import opened Prelude
  import opened Domain
  import opened CacheKeys
  import opened RedisValues
  import opened Stores
  import opened Redis

  /** What the caches stand in front of: the allowlist table, `lfs_objects`, and the key set each
      provider's endpoint currently serves. */
  datatype Sources = Sources(allowlist: set<string>, rows: Rows, served: map<string, JWKSet>)

  /** The keys a cache keeps for its source. The name of an allowed repository that the table cuts
      off is not one: its entry does not say what the table says. */
  predicate Tracked(family: Family, name: string) {
    family.Metadata? || family.Jwks? || (family.GitHubRepo? && !CutOff(name))
  }

  /** What a read of the source returns and the caller then caches. */
  function Truth(s: Sources, family: Family, name: string): Option<Value> {
    match family
    case Metadata =>
      if name in s.rows && Reconstruct(s.rows[name]).Ok? then Some(MetaV(Reconstruct(s.rows[name]).value)) else None
    case GitHubRepo => Some(TextV(if name in s.allowlist then "true" else "false"))
    case Jwks => if name in s.served then Some(JwksV(s.served[name])) else None
    case _ => None
  }

  /** Time to live by family, in seconds; the allowlist's is a constructor argument. */
  function Ttl(family: Family, allowlistTtl: int): int {
    if family.Metadata? then METADATA_TTL else if family.Jwks? then JWKS_TTL else allowlistTtl
  }

  datatype Moment = Moment(time: nat, sources: Sources)

  /** A value read from its source, on the way into the cache. */
  datatype Pending = Pending(family: Family, name: string, value: Value, seen: nat)

  /** `past` remembers what the sources were and when. */
  datatype Clockwork = Clockwork(now: nat, sources: Sources, entries: Entries, pending: map<nat, Pending>,
                                 past: seq<Moment>)

  datatype Event =
    | Tick(seconds: nat)
    | Edit(sources: Sources)
    | Observe(pid: nat, family: Family, name: string)
    | Fill(pid: nat, fault: Fault)
    | Drop(key: string)
    | Foreign(family: Family, name: string, value: Value, ttl: int)

  function Exec(s: Clockwork, e: Event, allowlistTtl: int): Clockwork {
    match e
    case Tick(d) => s.(now := s.now + d, past := s.past + [Moment(s.now + d, s.sources)])
    case Edit(sources) => s.(sources := sources, past := s.past + [Moment(s.now, sources)])
    case Observe(pid, family, name) =>
      if !Tracked(family, name) || Truth(s.sources, family, name).None? then s
      else s.(pending := s.pending[pid := Pending(family, name, Truth(s.sources, family, name).value, s.now)])
    case Fill(pid, f) =>
      if pid !in s.pending then s
      else
        var p := s.pending[pid];
        s.(pending := s.pending - {pid}, entries := SetEntry(s.entries, s.now, Key(p.family, p.name), p.value,
                                                             Ttl(p.family, allowlistTtl), f))
    case Drop(key) => s.(entries := s.entries - {key})
    case Foreign(family, name, v, ttl) =>
      if Tracked(family, name) then s else s.(entries := SetEntry(s.entries, s.now, Key(family, name), v, ttl, Fine))
  }

  function Run(s: Clockwork, events: seq<Event>, allowlistTtl: int): Clockwork
    decreases |events|
  {
    if events == [] then s else Run(Exec(s, events[0], allowlistTtl), events[1..], allowlistTtl)
  }

  /** No value spends more than `latency` between its source and the cache. With latency 0 every
      call is atomic. */
  predicate Prompt(s: Clockwork, events: seq<Event>, allowlistTtl: int, latency: nat)
    decreases |events|
  {
    events == [] ||
    ((events[0].Fill? && events[0].pid in s.pending ==> s.now - s.pending[events[0].pid].seen <= latency) &&
     Prompt(Exec(s, events[0], allowlistTtl), events[1..], allowlistTtl, latency))
  }

  function Begin(now: nat, sources: Sources): Clockwork {
    Clockwork(now, sources, map[], map[], [Moment(now, sources)])
  }

  /** The value was the truth at `time`. */
  ghost predicate TrueAt(past: seq<Moment>, family: Family, name: string, v: Value, time: nat) {
    exists i :: 0 <= i < |past| && past[i].time == time && Truth(past[i].sources, family, name) == Some(v)
  }

  /** A cached entry was the truth at some time, and dies within TTL and latency of it. */
  ghost predicate EntryOk(s: Clockwork, family: Family, name: string, e: Entry, allowlistTtl: int, latency: nat) {
    exists t: nat {:trigger TrueAt(s.past, family, name, e.value, t)} ::
      t <= s.now && TrueAt(s.past, family, name, e.value, t) &&
      e.deadline.Some? && e.deadline.value <= t + latency + Ttl(family, allowlistTtl)
  }

  /** The entry is there and expires one day. */
  predicate InForce(s: Clockwork, family: Family, name: string, allowlistTtl: int) {
    Tracked(family, name) && Ttl(family, allowlistTtl) > 0 && Key(family, name) in s.entries
  }

  ghost predicate Inv(s: Clockwork, allowlistTtl: int, latency: nat) {
    && |s.past| > 0 && s.past[|s.past| - 1] == Moment(s.now, s.sources)
    && (forall pid :: pid in s.pending ==> var p := s.pending[pid];
          Tracked(p.family, p.name) && p.seen <= s.now && TrueAt(s.past, p.family, p.name, p.value, p.seen))
    && (forall family, name :: InForce(s, family, name, allowlistTtl) ==>
          EntryOk(s, family, name, s.entries[Key(family, name)], allowlistTtl, latency))
  }

  lemma TruthsAreRemembered(past: seq<Moment>, m: Moment, family: Family, name: string, v: Value, t: nat)
    requires TrueAt(past, family, name, v, t)
    ensures TrueAt(past + [m], family, name, v, t)
  {
    var i :| 0 <= i < |past| && past[i].time == t && Truth(past[i].sources, family, name) == Some(v);
    assert (past + [m])[i] == past[i];
  }

  lemma TrueNow(s: Clockwork, family: Family, name: string)
    requires |s.past| > 0 && s.past[|s.past| - 1] == Moment(s.now, s.sources) && Truth(s.sources, family, name).Some?
    ensures TrueAt(s.past, family, name, Truth(s.sources, family, name).value, s.now)
  {
  }

  lemma TimeStep(s: Clockwork, s': Clockwork, allowlistTtl: int, latency: nat)
    requires Inv(s, allowlistTtl, latency) && s.now <= s'.now
    requires s' == s.(now := s'.now, sources := s'.sources, past := s.past + [Moment(s'.now, s'.sources)])
    ensures Inv(s', allowlistTtl, latency)
  {
    hide Truth, TrueAt, Key;
    forall pid | pid in s.pending ensures var p := s.pending[pid]; TrueAt(s'.past, p.family, p.name, p.value, p.seen) {
      var p := s.pending[pid];
      TruthsAreRemembered(s.past, Moment(s'.now, s'.sources), p.family, p.name, p.value, p.seen);
    }
    forall family, name | Tracked(family, name) && Ttl(family, allowlistTtl) > 0 && Key(family, name) in s.entries
      ensures EntryOk(s', family, name, s.entries[Key(family, name)], allowlistTtl, latency)
    {
      var e := s.entries[Key(family, name)];
      var t: nat :| t <= s.now && TrueAt(s.past, family, name, e.value, t) &&
        e.deadline.Some? && e.deadline.value <= t + latency + Ttl(family, allowlistTtl);
      TruthsAreRemembered(s.past, Moment(s'.now, s'.sources), family, name, e.value, t);
    }
  }

  lemma WriteStep(s: Clockwork, s': Clockwork, family: Family, name: string, e: Entry, allowlistTtl: int, latency: nat)
    requires Inv(s, allowlistTtl, latency)
    requires Tracked(family, name) && Ttl(family, allowlistTtl) > 0 ==>
            EntryOk(s, family, name, e, allowlistTtl, latency)
    requires s' == s.(entries := s.entries[Key(family, name) := e])
    ensures Inv(s', allowlistTtl, latency)
  {
    hide Truth, TrueAt, Key;
    forall g, y | Tracked(g, y) && Ttl(g, allowlistTtl) > 0 && Key(g, y) in s'.entries
      ensures EntryOk(s', g, y, s'.entries[Key(g, y)], allowlistTtl, latency)
    {
      KeysInjective(g, y, family, name);
      if Key(g, y) != Key(family, name) {
        assert EntryOk(s, g, y, s.entries[Key(g, y)], allowlistTtl, latency);
      }
    }
  }

  lemma FillStep(s: Clockwork, pid: nat, allowlistTtl: int, latency: nat)
    requires Inv(s, allowlistTtl, latency)
    requires pid in s.pending && s.now - s.pending[pid].seen <= latency && Ttl(s.pending[pid].family, allowlistTtl) > 0
    ensures var p := s.pending[pid];
      EntryOk(s, p.family, p.name, Entry(p.value, Some(s.now + Ttl(p.family, allowlistTtl))), allowlistTtl, latency)
  {
    hide Truth, TrueAt, Key;
    var p := s.pending[pid];
    assert TrueAt(s.past, p.family, p.name, p.value, p.seen);
  }

  lemma StepKeepsInvariant(s: Clockwork, e: Event, allowlistTtl: int, latency: nat)
    requires Inv(s, allowlistTtl, latency)
    requires e.Fill? && e.pid in s.pending ==> s.now - s.pending[e.pid].seen <= latency
    ensures Inv(Exec(s, e, allowlistTtl), allowlistTtl, latency)
  {
    hide Truth, TrueAt, Key;
    var s' := Exec(s, e, allowlistTtl);
    match e {
      case Tick(_) => TimeStep(s, s', allowlistTtl, latency);
      case Edit(_) => TimeStep(s, s', allowlistTtl, latency);
      case Observe(pid, family, name) =>
        if Tracked(family, name) && Truth(s.sources, family, name).Some? {
          TrueNow(s, family, name);
        }
      case Fill(pid, f) =>
        if pid in s.pending && f != Lost {
          var p := s.pending[pid];
          var key, ttl := Key(p.family, p.name), Ttl(p.family, allowlistTtl);
          var entry := Entry(p.value, if ttl <= 0 then None else Some(s.now + ttl));
          if ttl > 0 {
            FillStep(s, pid, allowlistTtl, latency);
          }
          WriteStep(s, s.(entries := s.entries[key := entry]), p.family, p.name, entry, allowlistTtl, latency);
        }
      case Drop(key) =>
        forall g, y | Tracked(g, y) && Ttl(g, allowlistTtl) > 0 && Key(g, y) in s'.entries
          ensures EntryOk(s', g, y, s'.entries[Key(g, y)], allowlistTtl, latency)
        {
          assert EntryOk(s, g, y, s.entries[Key(g, y)], allowlistTtl, latency);
        }
      case Foreign(family, name, v, ttl) =>
        if !Tracked(family, name) {
          WriteStep(s, s', family, name, s'.entries[Key(family, name)], allowlistTtl, latency);
        }
    }
  }

  lemma {:induction false} RunsKeepInvariant(s: Clockwork, events: seq<Event>, allowlistTtl: int, latency: nat)
    requires Inv(s, allowlistTtl, latency) && Prompt(s, events, allowlistTtl, latency)
    ensures Inv(Run(s, events, allowlistTtl), allowlistTtl, latency)
    decreases |events|
  {
    hide Inv, Exec;
    if events != [] {
      StepKeepsInvariant(s, events[0], allowlistTtl, latency);
      RunsKeepInvariant(Exec(s, events[0], allowlistTtl), events[1..], allowlistTtl, latency);
    }
  }

  /** The sources said so at a moment less than `age` ago (or just now). */
  ghost predicate SaidWithin(s: Clockwork, family: Family, name: string, v: Value, age: int) {
    exists i :: 0 <= i < |s.past| && s.past[i].time <= s.now &&
                (s.now < s.past[i].time + age || s.now == s.past[i].time) &&
                Truth(s.past[i].sources, family, name) == Some(v)
  }

  /** Bounded staleness, for all three caches at once: whatever edits, expiries, lost writes and
      lost deletes a run has, a cached value a client can see was the value of its source less than
      one TTL (plus the time a value may spend in flight) ago. */
  lemma CachedValuesAreRecent(now: nat, sources: Sources, events: seq<Event>, allowlistTtl: int, latency: nat,
                              family: Family, name: string)
    requires Ttl(family, allowlistTtl) > 0 && Tracked(family, name) &&
            Prompt(Begin(now, sources), events, allowlistTtl, latency)
    ensures var s := Run(Begin(now, sources), events, allowlistTtl);
      Key(family, name) in Live(s.entries, s.now) ==>
      SaidWithin(s, family, name, Live(s.entries, s.now)[Key(family, name)], Ttl(family, allowlistTtl) + latency)
  {
    hide Key, Truth;
    var s := Run(Begin(now, sources), events, allowlistTtl);
    RunsKeepInvariant(Begin(now, sources), events, allowlistTtl, latency);
    if Key(family, name) in Live(s.entries, s.now) {
      var e := s.entries[Key(family, name)];
      assert EntryOk(s, family, name, e, allowlistTtl, latency);
      var t: nat :| t <= s.now && TrueAt(s.past, family, name, e.value, t) &&
        e.deadline.Some? && e.deadline.value <= t + latency + Ttl(family, allowlistTtl);
      var i :| 0 <= i < |s.past| && s.past[i].time == t && Truth(s.past[i].sources, family, name) == Some(e.value);
    }
  }

  /** A read that goes to the source says what the source says now. */
  lemma DirectReadsAreCurrent(now: nat, sources: Sources, events: seq<Event>, allowlistTtl: int, family: Family,
                              name: string, age: int)
    ensures var s := Run(Begin(now, sources), events, allowlistTtl);
      Truth(s.sources, family, name).Some? ==> SaidWithin(s, family, name, Truth(s.sources, family, name).value, age)
  {
    hide Truth, Exec;
    PastIsKept(Begin(now, sources), events, allowlistTtl);
    var s := Run(Begin(now, sources), events, allowlistTtl);
    assert s.past[|s.past| - 1] == Moment(s.now, s.sources);
  }

  lemma {:induction false} PastIsKept(s: Clockwork, events: seq<Event>, allowlistTtl: int)
    requires |s.past| > 0 && s.past[|s.past| - 1] == Moment(s.now, s.sources)
    ensures var s' := Run(s, events, allowlistTtl);
      |s'.past| > 0 && s'.past[|s'.past| - 1] == Moment(s'.now, s'.sources)
    decreases |events|
  {
    if events != [] {
      PastIsKept(Exec(s, events[0], allowlistTtl), events[1..], allowlistTtl);
    }
  }

  lemma RunNext(s: Clockwork, e: Event, rest: seq<Event>, allowlistTtl: int, latency: nat)
    ensures Run(s, [e] + rest, allowlistTtl) == Run(Exec(s, e, allowlistTtl), rest, allowlistTtl)
    ensures Prompt(s, [e] + rest, allowlistTtl, latency) <==>
            (e.Fill? && e.pid in s.pending ==> s.now - s.pending[e.pid].seen <= latency) &&
            Prompt(Exec(s, e, allowlistTtl), rest, allowlistTtl, latency)
  {
    assert ([e] + rest)[1..] == rest;
  }

  /** Reading a source and caching what it said, in one go. */
  function ObserveAndFill(family: Family, name: string, f: Fault): seq<Event> {
    [Observe(0, family, name)] + ([Fill(0, f)] + [])
  }

  lemma ObserveAndFillWrites(s: Clockwork, family: Family, name: string, f: Fault, allowlistTtl: int)
    requires s.pending == map[] && Tracked(family, name) && Truth(s.sources, family, name).Some?
    ensures Run(s, ObserveAndFill(family, name, f), allowlistTtl) ==
            s.(entries := SetEntry(s.entries, s.now, Key(family, name), Truth(s.sources, family, name).value,
                                   Ttl(family, allowlistTtl), f))
    ensures Prompt(s, ObserveAndFill(family, name, f), allowlistTtl, 0)
  {
    hide Truth, Key;
    var s1 := Exec(s, Observe(0, family, name), allowlistTtl);
    RunNext(s, Observe(0, family, name), [Fill(0, f)] + [], allowlistTtl, 0);
    RunNext(s1, Fill(0, f), [], allowlistTtl, 0);
    assert Exec(s1, Fill(0, f), allowlistTtl).pending == map[];
  }

  lemma {:induction false} RunAppend(s: Clockwork, xs: seq<Event>, ys: seq<Event>, allowlistTtl: int)
    ensures Run(s, xs + ys, allowlistTtl) == Run(Run(s, xs, allowlistTtl), ys, allowlistTtl)
    ensures forall latency: nat :: Prompt(s, xs + ys, allowlistTtl, latency) <==>
              Prompt(s, xs, allowlistTtl, latency) && Prompt(Run(s, xs, allowlistTtl), ys, allowlistTtl, latency)
    decreases |xs|
  {
    hide Exec;
    if xs == [] {
      assert xs + ys == ys;
    } else {
      assert (xs + ys)[1..] == xs[1..] + ys;
      RunAppend(Exec(s, xs[0], allowlistTtl), xs[1..], ys, allowlistTtl);
    }
  }
}
