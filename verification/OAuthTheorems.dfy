// What every interleaving of starts and callbacks guarantees, and what it does not.

module OAuthTheorems {
  import opened Prelude
  import opened Domain
  import opened CacheKeys
  import opened RedisValues
  import opened Shells
  import opened Sessions
  import opened OAuth
  import opened OAuthInvariants

  /** The state id a session was opened with. */
  function StateOf(s: System, id: string): string
    requires id in s.sessions && s.sessions[id].pid in s.procs && s.procs[s.sessions[id].pid].req.Callback?
  {
    s.procs[s.sessions[id].pid].req.state
  }

  /** The session exists and was opened by a callback. */
  ghost predicate OpenedByCallback(s: System, id: string) {
    id in s.sessions && s.sessions[id].pid in s.procs && s.procs[s.sessions[id].pid].req.Callback?
  }

  /** Each saved state yields at most one session, and at most one callback with it succeeds; what
      that callback returns is the session it opened and the shell of the start the state was saved
      for. */
  lemma StateIsConsumedOnce(redirectURI: string, events: seq<Event>, allowed: seq<string>, id: string, id': string,
                            pid: nat)
    ensures var s := Run(Initial(redirectURI), events, allowed);
      && (id in s.sessions ==> OpenedByCallback(s, id))
      && (OpenedByCallback(s, id) && OpenedByCallback(s, id') && StateOf(s, id) == StateOf(s, id') ==> id == id')
      && (pid in s.procs && s.procs[pid].next.Done? && s.procs[pid].next.outcome.LoggedIn? ==>
          var session := s.procs[pid].next.outcome.session;
          && OpenedByCallback(s, session) && s.sessions[session].pid == pid
          && StartOk(s, StateOf(s, session), allowed)
          && s.procs[pid].next.outcome.shell == StartOf(s, StateOf(s, session)).shell)
  {
    hide Restored, LoginOk, EntriesOk;
    ReachableInvariant(redirectURI, events, allowed);
    var s := Run(Initial(redirectURI), events, allowed);
    assert id in s.sessions ==> SessionOk(s, id, allowed);
    assert id' in s.sessions ==> SessionOk(s, id', allowed);
    assert pid in s.procs ==> ProcessOk(s, pid, allowed);
  }

  /** Every session, and so every entry a client finds in Redis, belongs to the repository given at
      the start its state was saved for and to the user GitHub named to its callback, with exactly the
      permissions GitHub answered, and these let the user read; reading it back gives just that user. */
  lemma SessionCarriesItsStart(redirectURI: string, events: seq<Event>, allowed: seq<string>, id: string)
    ensures var s := Run(Initial(redirectURI), events, allowed);
      && (SessionKey(id) in s.cache ==> id in s.sessions && s.cache[SessionKey(id)] == SessionV(s.sessions[id].stored))
      && (id in s.sessions ==>
          && OpenedByCallback(s, id)
          && var state := StateOf(s, id);
          var stored, p := s.sessions[id].stored, s.procs[s.sessions[id].pid];
          && StartOk(s, state, allowed) && StartOf(s, state).repository.Some? && p.user.Some? && p.permissions.Some?
          && var repository, user, flags := StartOf(s, state).repository.value, p.user.value, p.permissions.value;
          && stored == UserInfoDTO(FormatInt(user.id), "", user.name, "github", repository.FullName(), "",
                                   flags.admin, flags.push, flags.pull, flags.maintain, flags.triage)
          && Restored(stored) == Ok(User(FormatInt(user.id), "", user.name, "github", Some(repository), "",
                                         Some(flags)))
          && (flags.pull || flags.push || flags.admin || flags.maintain || flags.triage))
  {
    hide Restored, OIDCStateKey, SessionKey, FormatInt, RepositoryIdentifier.FullName;
    ReachableInvariant(redirectURI, events, allowed);
    var s := Run(Initial(redirectURI), events, allowed);
    assert SessionEntryOk(s, id);
    if id in s.sessions {
      assert SessionOk(s, id, allowed);
      StoredRoundTrip(s.sessions[id].stored);
    }
  }

  /** So a session may upload exactly if GitHub answered push, admin or maintain, every session may
      download, and two sessions name the same subject exactly if their users have the same GitHub id. */
  lemma SessionsActForTheirUser(redirectURI: string, events: seq<Event>, allowed: seq<string>, id: string, id': string)
    ensures var s := Run(Initial(redirectURI), events, allowed);
      id in s.sessions && id' in s.sessions ==>
        && OpenedByCallback(s, id) && OpenedByCallback(s, id')
        && var p, p' := s.procs[s.sessions[id].pid], s.procs[s.sessions[id'].pid];
        && p.user.Some? && p'.user.Some? && p.permissions.Some? && Restored(s.sessions[id].stored).Ok?
        && var user, flags := Some(Restored(s.sessions[id].stored).value), p.permissions.value;
        && (CheckPermissions(user, "upload").Ok? <==> flags.push || flags.admin || flags.maintain)
        && CheckPermissions(user, "download").Ok?
        && (s.sessions[id].stored.sub == s.sessions[id'].stored.sub <==> p.user.value.id == p'.user.value.id)
  {
    hide Restored, OIDCStateKey, SessionKey, FormatInt, Run, RepositoryIdentifier.FullName, CheckPermissions;
    var s := Run(Initial(redirectURI), events, allowed);
    SessionCarriesItsStart(redirectURI, events, allowed, id);
    SessionCarriesItsStart(redirectURI, events, allowed, id');
    if id in s.sessions && id' in s.sessions {
      var p, p' := s.procs[s.sessions[id].pid], s.procs[s.sessions[id'].pid];
      PermissionDecision(Some(Restored(s.sessions[id].stored).value), "upload");
      FormatIntRoundTrip(p.user.value.id, p'.user.value.id);
    }
  }

  /** A state still in Redis was saved by a start, has not been taken and has opened no session; with
      HistoryIsKept, one that was taken never comes back. */
  lemma TakenStatesStayGone(redirectURI: string, events: seq<Event>, allowed: seq<string>, state: string)
    ensures var s := Run(Initial(redirectURI), events, allowed);
      OIDCStateKey(state) in s.cache ==>
        StartOk(s, state, allowed) && state !in s.taken &&
        forall id :: id in s.sessions ==> OpenedByCallback(s, id) && StateOf(s, id) != state
  {
    hide Restored, OIDCStateKey, LoginOk;
    ReachableInvariant(redirectURI, events, allowed);
    var s := Run(Initial(redirectURI), events, allowed);
    assert StateEntryOk(s, state, allowed);
    assert forall id :: id in s.sessions ==> SessionOk(s, id, allowed);
  }

  // ---------- history is kept ----------

  lemma AdvanceExtends(s: System, pid: nat, allowed: seq<string>, a: Answers)
    requires Inv(s, allowed) && pid in s.procs
    ensures Extends(s, Advance(s, pid, allowed, a), pid)
  {
    hide Inv, CheckStart, SaveState, ConsumeState, CreateSession, NewLogin, TrimSpace, Extends, ProcessOk;
    var p := s.procs[pid];
    FromInvariant(s, pid, a.uuid, allowed);
    if p.next.Begin? && p.req.Callback? {
      BeginsClean(s, pid, allowed);
      ConsumeStateExtends(s, pid, allowed, a);
    } else if p.next.Begin? {
      BeginsClean(s, pid, allowed);
      IdsAreKnown(s, allowed);
      if CheckStart(allowed, p.req.repository, p.req.redirectURI).Ok? && a.uuid !in s.issued {
        SaveStateExtends(s, pid, allowed, a);
      } else {
        SaveStateStops(s, pid, allowed, a);
      }
    } else if p.next.OpenSession? && a.uuid !in s.issued {
      CreateSessionExtends(s, pid, allowed, p.next.login, p.next.shell, a);
    } else {
      if p.next.OpenSession? {
        UsedId(s, pid, p.next.login, p.next.shell, a);
      }
      OwnMoveExtends(s, Advance(s, pid, allowed, a), pid);
    }
  }

  lemma UsedId(s: System, pid: nat, login: User, shell: ShellType, a: Answers)
    requires pid in s.procs && a.uuid in s.issued
    ensures CreateSession(s, pid, login, shell, a) == s
  {
  }

  lemma SaveStateStops(s: System, pid: nat, allowed: seq<string>, a: Answers)
    requires pid in s.procs && s.procs[pid].req.Start?
    requires CheckStart(allowed, s.procs[pid].req.repository, s.procs[pid].req.redirectURI).Err? || a.uuid in s.issued
    ensures Extends(s, SaveState(s, pid, allowed, a), pid)
  {
    hide CheckStart;
  }

  /** A move of one process and perhaps of the shared URI. */
  lemma OwnMoveExtends(s: System, s': System, pid: nat)
    requires pid in s.procs && TouchesNoStore(s, s', pid)
    ensures Extends(s, s', pid)
  {
  }

  /** Nothing that has happened is forgotten or changed. */
  ghost predicate Kept(s: System, s': System) {
    && (forall id :: id in s.sessions ==> id in s'.sessions && s'.sessions[id] == s.sessions[id])
    && (forall state :: state in s.started ==> state in s'.started && s'.started[state] == s.started[state])
    && (forall state :: state in s.taken ==> state in s'.taken && s'.taken[state] == s.taken[state])
    && (forall pid :: pid in s.procs ==> pid in s'.procs && s'.procs[pid].req == s.procs[pid].req)
  }

  lemma ExecKeeps(s: System, e: Event, allowed: seq<string>)
    requires Inv(s, allowed)
    ensures Kept(s, Exec(s, e, allowed))
  {
    hide Inv, Advance;
    if e.Step? && e.pid in s.procs {
      AdvanceExtends(s, e.pid, allowed, e.answers);
    }
  }

  /** The sessions written, the states saved and the states taken so far stay known, with what they
      were for: the theorems above speak of everything that ever happened. */
  lemma {:induction false} HistoryIsKept(s: System, events: seq<Event>, allowed: seq<string>)
    requires Inv(s, allowed)
    ensures Kept(s, Run(s, events, allowed))
    decreases |events|
  {
    hide Inv, Exec;
    if events != [] {
      ExecKeepsInvariant(s, events[0], allowed);
      ExecKeeps(s, events[0], allowed);
      HistoryIsKept(Exec(s, events[0], allowed), events[1..], allowed);
    }
  }
}

// The redirect URI all requests share.

module RedirectRace {
  import opened Prelude
  import opened Domain
  import opened CacheKeys
  import opened RedisValues
  import opened Stores
  import opened Shells
  import opened Sessions
  import opened OAuth
  import opened OAuthInvariants
  import opened OAuthTheorems

  /** Every code exchange so far named the redirect URI of its own start. */
  ghost predicate ExchangesOwn(s: System) {
    forall pid :: pid in s.procs && s.procs[pid].req.Callback? && s.procs[pid].sent.Some? ==>
      var state := s.procs[pid].req.state;
      state in s.started && s.started[state] in s.procs && StartOf(s, state).Start? &&
      s.procs[pid].sent.value == TrimSpace(StartOf(s, state).redirectURI)
  }

  /** Every authorization URL so far named the redirect URI of its own start. */
  ghost predicate StartsOwn(s: System) {
    forall pid :: pid in s.procs && s.procs[pid].req.Start? && s.procs[pid].sent.Some? ==>
      s.procs[pid].sent.value == TrimSpace(s.procs[pid].req.redirectURI)
  }

  predicate AllTrimTo(allowed: seq<string>, t: string) {
    forall u :: u in allowed ==> TrimSpace(u) == t
  }

  /** What holds while only one URI is in play. */
  ghost predicate OneURI(s: System, allowed: seq<string>, t: string) {
    forall pid :: pid in s.procs ==>
      var p := s.procs[pid];
      && (p.next.BuildURL? || p.next.Exchange? ==> s.redirectURI == t)
      && (p.sent.Some? ==> p.sent.value == t &&
                           if p.req.Callback? then Took(s, pid, allowed) else p.req.redirectURI in allowed)
  }

  lemma TookStays(s: System, s': System, pid: nat, q: nat, allowed: seq<string>)
    requires Extends(s, s', pid) && Took(s, q, allowed)
    ensures Took(s', q, allowed)
  {
    hide CheckStart;
    StartsStay(s, s', pid, s.procs[q].req.state, allowed);
  }

  /** The URI a request is about to set is an allowed one. */
  lemma URIsAreAllowed(s: System, pid: nat, allowed: seq<string>)
    requires pid in s.procs && ProcessOk(s, pid, allowed)
    ensures var p := s.procs[pid];
      && (p.next.PointStart? && p.req.Start? ==> p.req.redirectURI in allowed)
      && (p.next.BuildURL? ==> p.req.Start? && p.req.redirectURI in allowed)
      && (p.next.PointCallback? ==> p.next.uri in allowed)
      && (p.next.Exchange? ==> Took(s, pid, allowed))
  {
  }

  /** Steps that leave the shared URI and what was sent alone, and after which it is not read next. */
  ghost predicate LeavesURI(s: System, s': System, pid: nat)
    requires pid in s.procs
  {
    && s'.redirectURI == s.redirectURI && s'.procs.Keys == s.procs.Keys && s'.procs[pid].sent == s.procs[pid].sent
    && (s'.procs[pid].next.BuildURL? ==> s.procs[pid].next.BuildURL?)
    && (s'.procs[pid].next.Exchange? ==> s.procs[pid].next.Exchange?)
  }

  lemma StoreStepsLeaveURI(s: System, pid: nat, allowed: seq<string>, a: Answers, login: User, shell: ShellType)
    requires pid in s.procs
    ensures s.procs[pid].req.Start? ==> LeavesURI(s, SaveState(s, pid, allowed, a), pid)
    ensures s.procs[pid].req.Callback? ==> LeavesURI(s, ConsumeState(s, pid, a), pid)
    ensures LeavesURI(s, CreateSession(s, pid, login, shell, a), pid)
  {
    hide CheckStart, NewRepositoryIdentifier, StoredShell, StateRecord, TakeState, Stored, OIDCStateKey, SessionKey;
  }

  /** What a step does to the shared URI, and which URI it sends. */
  lemma URIsMove(s: System, pid: nat, allowed: seq<string>, a: Answers)
    requires pid in s.procs
    ensures var p, s' := s.procs[pid], Advance(s, pid, allowed, a);
      && s'.procs.Keys == s.procs.Keys
      && s'.redirectURI == (if p.next.PointStart? && p.req.Start? then TrimSpace(p.req.redirectURI)
                            else if p.next.PointCallback? then TrimSpace(p.next.uri) else s.redirectURI)
      && s'.procs[pid].sent == (if p.next.BuildURL? || p.next.Exchange? then Some(s.redirectURI) else p.sent)
      && (s'.procs[pid].next.BuildURL? ==> p.next.PointStart? && p.req.Start?)
      && (s'.procs[pid].next.Exchange? ==> p.next.PointCallback?)
  {
    hide CheckStart, SaveState, ConsumeState, CreateSession, NewLogin, TrimSpace;
    var p := s.procs[pid];
    if p.next.Begin? {
      StoreStepsLeaveURI(s, pid, allowed, a, User("", "", "", "", None, "", None), "");
    } else if p.next.OpenSession? {
      StoreStepsLeaveURI(s, pid, allowed, a, p.next.login, p.next.shell);
    }
  }

  lemma AdvanceKeepsOneURI(s: System, pid: nat, allowed: seq<string>, a: Answers, t: string)
    requires Inv(s, allowed) && pid in s.procs && AllTrimTo(allowed, t) && OneURI(s, allowed, t)
    ensures OneURI(Advance(s, pid, allowed, a), allowed, t)
  {
    hide Inv, Advance, TrimSpace, Took, ProcessOk;
    var s' := Advance(s, pid, allowed, a);
    FromInvariant(s, pid, "", allowed);
    URIsAreAllowed(s, pid, allowed);
    URIsMove(s, pid, allowed, a);
    AdvanceExtends(s, pid, allowed, a);
    forall q | q in s.procs && Took(s, q, allowed) ensures Took(s', q, allowed) {
      TookStays(s, s', pid, q, allowed);
    }
  }

  lemma {:induction false} RunsKeepOneURI(s: System, events: seq<Event>, allowed: seq<string>, t: string)
    requires Inv(s, allowed) && AllTrimTo(allowed, t) && OneURI(s, allowed, t)
    ensures OneURI(Run(s, events, allowed), allowed, t)
    decreases |events|
  {
    hide Inv, Advance, CheckStart;
    if events != [] {
      var e := events[0];
      ExecKeepsInvariant(s, e, allowed);
      if e.Step? && e.pid in s.procs {
        AdvanceKeepsOneURI(s, e.pid, allowed, e.answers, t);
      }
      RunsKeepOneURI(Exec(s, e, allowed), events[1..], allowed, t);
    }
  }

  /** With one redirect URI (up to surrounding space), every exchange and every authorization URL in
      every run names its own. */
  lemma OneURINeverMixes(initial: string, events: seq<Event>, allowed: seq<string>, t: string)
    requires AllTrimTo(allowed, t)
    ensures ExchangesOwn(Run(Initial(initial), events, allowed)) && StartsOwn(Run(Initial(initial), events, allowed))
  {
    hide TrimSpace, Inv;
    ReachableInvariant(initial, [], allowed);
    RunsKeepOneURI(Initial(initial), events, allowed, t);
    var s := Run(Initial(initial), events, allowed);
    forall pid | pid in s.procs && s.procs[pid].req.Callback? && s.procs[pid].sent.Some?
      ensures var state := s.procs[pid].req.state;
        state in s.started && s.started[state] in s.procs && StartOf(s, state).Start? &&
        s.procs[pid].sent.value == TrimSpace(StartOf(s, state).redirectURI)
    {
      assert Took(s, pid, allowed);
    }
  }

  // ---------- two redirect URIs ----------

  function Quiet(uuid: string): Answers {
    Answers(Fine, uuid, true, None, None)
  }

  const REPO: Repo := RepositoryIdentifier("o", "n")

  /** A login that starts with `u`; while its callback is between setting the URI and using it,
      another login starts with `v`. */
  function Mixed(u: string, v: string): seq<Event> {
    [Arrive(0, Start(Some(REPO), u, ""))] + ([Step(0, Quiet("a"))] +
    ([Arrive(1, Callback("c", "a"))] + ([Step(1, Quiet(""))] + ([Step(1, Quiet(""))] +
    ([Arrive(2, Start(Some(REPO), v, ""))] + ([Step(2, Quiet("b"))] + ([Step(2, Quiet(""))] +
    ([Step(1, Quiet(""))] + []))))))))
  }

  /** The state was saved and taken: the callback is about to set its URI. */
  function Midway(initial: string, u: string, cache: Cache): System {
    var start := Process(Start(Some(REPO), u, ""), PointStart("a"), None, None);
    var callback := Process(Callback("c", "a"), PointCallback(REPO, u, ""), None, None);
    System(cache, initial, {"a"}, map["a" := 0], map["a" := 1], map[], map[0 := start, 1 := callback])
  }

  lemma FirstHalf(initial: string, u: string, allowed: seq<string>, rest: seq<Event>)
    requires u in allowed && u != ""
    ensures Run(Initial(initial),
                [Arrive(0, Start(Some(REPO), u, ""))] + ([Step(0, Quiet("a"))] +
                ([Arrive(1, Callback("c", "a"))] + ([Step(1, Quiet(""))] + rest))), allowed) ==
            Run(Midway(initial, u, map[]), rest, allowed)
  {
    hide TrimSpace, OIDCStateKey, NewRepositoryIdentifier;
    var key := OIDCStateKey("a");
    var e1, e2, e3, e4 := Arrive(0, Start(Some(REPO), u, "")), Step(0, Quiet("a")), Arrive(1, Callback("c", "a")),
      Step(1, Quiet(""));
    var s0 := Initial(initial);
    var s1 := s0.(procs := map[0 := Process(Start(Some(REPO), u, ""), Begin, None, None)]);
    var s2 := s1.(cache := map[key := StateV(StateRecord(REPO, u, ""))], issued := {"a"}, started := map["a" := 0],
                  procs := map[0 := Process(Start(Some(REPO), u, ""), PointStart("a"), None, None)]);
    var s3 := s2.(procs := s2.procs[1 := Process(Callback("c", "a"), Begin, None, None)]);
    RunNext(s0, e1, [e2] + ([e3] + ([e4] + rest)), allowed);
    RunNext(s1, e2, [e3] + ([e4] + rest), allowed);
    RunNext(s2, e3, [e4] + rest, allowed);
    RunNext(s3, e4, rest, allowed);
    assert Exec(s1, e2, allowed) == s2;
    StateRoundTrip(REPO, u, "");
    assert map[key := StateV(StateRecord(REPO, u, ""))] - {key} == map[];
    assert Exec(s3, e4, allowed) == Midway(initial, u, map[]);
  }

  lemma SecondHalf(initial: string, u: string, v: string, allowed: seq<string>)
    requires v in allowed && v != ""
    ensures var s := Run(Midway(initial, u, map[]),
                         [Step(1, Quiet(""))] + ([Arrive(2, Start(Some(REPO), v, ""))] +
                         ([Step(2, Quiet("b"))] + ([Step(2, Quiet(""))] + ([Step(1, Quiet(""))] + [])))), allowed);
      && 1 in s.procs && s.procs[1].req == Callback("c", "a") && s.procs[1].sent == Some(TrimSpace(v))
      && s.started == map["a" := 0, "b" := 2] && 0 in s.procs && s.procs[0].req == Start(Some(REPO), u, "")
  {
    hide TrimSpace, OIDCStateKey;
    var e1, e2, e3, e4 := Step(1, Quiet("")), Arrive(2, Start(Some(REPO), v, "")), Step(2, Quiet("b")),
      Step(2, Quiet(""));
    var s0 := Midway(initial, u, map[]);
    var s1 := Exec(s0, e1, allowed);
    var s2 := Exec(s1, e2, allowed);
    var s3 := Exec(s2, e3, allowed);
    var s4 := Exec(s3, e4, allowed);
    RunNext(s0, e1, [e2] + ([e3] + ([e4] + ([e1] + []))), allowed);
    RunNext(s1, e2, [e3] + ([e4] + ([e1] + [])), allowed);
    RunNext(s2, e3, [e4] + ([e1] + []), allowed);
    RunNext(s3, e4, [e1] + [], allowed);
    RunNext(s4, e1, [], allowed);
    assert s1.procs[1].next == Exchange(REPO, "");
    assert "b" !in s2.issued && s3.procs[2].next == PointStart("b");
    assert s4.redirectURI == TrimSpace(v) && s4.procs[1] == s1.procs[1];
  }

  /** Two allowed redirect URIs are enough for an exchange to name the other login's. */
  lemma TwoURIsCanMix(initial: string, u: string, v: string, allowed: seq<string>)
    requires u in allowed && v in allowed && u != "" && v != "" && TrimSpace(u) != TrimSpace(v)
    ensures !ExchangesOwn(Run(Initial(initial), Mixed(u, v), allowed))
  {
    hide TrimSpace, Exec;
    FirstHalf(initial, u, allowed,
      [Step(1, Quiet(""))] + ([Arrive(2, Start(Some(REPO), v, ""))] + ([Step(2, Quiet("b"))] + ([Step(2, Quiet(""))] +
      ([Step(1, Quiet(""))] + [])))));
    SecondHalf(initial, u, v, allowed);
  }

  /** A start between another start's saving of its URI and its use of it. */
  function MixedStarts(u: string, v: string): seq<Event> {
    [Arrive(0, Start(Some(REPO), u, ""))] + ([Step(0, Quiet("a"))] + ([Step(0, Quiet(""))] +
    ([Arrive(1, Start(Some(REPO), v, ""))] + ([Step(1, Quiet("b"))] + ([Step(1, Quiet(""))] +
    ([Step(0, Quiet(""))] + []))))))
  }

  /** One start has set its URI and is about to build its URL from it. */
  function Poised(u: string, cache: Cache): System {
    System(cache, TrimSpace(u), {"a"}, map["a" := 0], map[], map[],
           map[0 := Process(Start(Some(REPO), u, ""), BuildURL("a"), None, None)])
  }

  lemma FirstStartPoised(initial: string, u: string, allowed: seq<string>, rest: seq<Event>)
    requires u in allowed && u != ""
    ensures var cache := map[OIDCStateKey("a") := StateV(StateRecord(REPO, u, ""))];
      Run(Initial(initial),
          [Arrive(0, Start(Some(REPO), u, ""))] + ([Step(0, Quiet("a"))] + ([Step(0, Quiet(""))] + rest)), allowed) ==
      Run(Poised(u, cache), rest, allowed)
  {
    hide TrimSpace, OIDCStateKey;
    var e1, e2, e3 := Arrive(0, Start(Some(REPO), u, "")), Step(0, Quiet("a")), Step(0, Quiet(""));
    var s0 := Initial(initial);
    var s1 := Exec(s0, e1, allowed);
    var s2 := Exec(s1, e2, allowed);
    RunNext(s0, e1, [e2] + ([e3] + rest), allowed);
    RunNext(s1, e2, [e3] + rest, allowed);
    RunNext(s2, e3, rest, allowed);
    assert s2.procs == map[0 := Process(Start(Some(REPO), u, ""), PointStart("a"), None, None)];
    assert Exec(s2, e3, allowed) == Poised(u, map[OIDCStateKey("a") := StateV(StateRecord(REPO, u, ""))]);
  }

  lemma SecondStartInterferes(u: string, v: string, cache: Cache, allowed: seq<string>)
    requires v in allowed && v != ""
    ensures var s := Run(Poised(u, cache),
                         [Arrive(1, Start(Some(REPO), v, ""))] + ([Step(1, Quiet("b"))] + ([Step(1, Quiet(""))] +
                         ([Step(0, Quiet(""))] + []))), allowed);
      0 in s.procs && s.procs[0].req == Start(Some(REPO), u, "") && s.procs[0].sent == Some(TrimSpace(v))
  {
    hide TrimSpace, OIDCStateKey, StateRecord;
    var e1, e2, e3, e4 := Arrive(1, Start(Some(REPO), v, "")), Step(1, Quiet("b")), Step(1, Quiet("")),
      Step(0, Quiet(""));
    var s0 := Poised(u, cache);
    var s1 := Exec(s0, e1, allowed);
    var s2 := Exec(s1, e2, allowed);
    var s3 := Exec(s2, e3, allowed);
    RunNext(s0, e1, [e2] + ([e3] + ([e4] + [])), allowed);
    RunNext(s1, e2, [e3] + ([e4] + []), allowed);
    RunNext(s2, e3, [e4] + [], allowed);
    RunNext(s3, e4, [], allowed);
    assert s2.procs[1].next == PointStart("b");
    assert s3.redirectURI == TrimSpace(v) && s3.procs[0] == s0.procs[0];
  }

  /** ... and for an authorization URL to name the other start's. */
  lemma TwoStartsCanMix(initial: string, u: string, v: string, allowed: seq<string>)
    requires u in allowed && v in allowed && u != "" && v != "" && TrimSpace(u) != TrimSpace(v)
    ensures !StartsOwn(Run(Initial(initial), MixedStarts(u, v), allowed))
  {
    hide TrimSpace, Exec, Poised;
    FirstStartPoised(initial, u, allowed,
      [Arrive(1, Start(Some(REPO), v, ""))] + ([Step(1, Quiet("b"))] +
      ([Step(1, Quiet(""))] + ([Step(0, Quiet(""))] + []))));
    SecondStartInterferes(u, v, map[OIDCStateKey("a") := StateV(StateRecord(REPO, u, ""))], allowed);
  }

  ghost predicate ExchangesNeverMix(allowed: seq<string>) {
    forall initial, events :: ExchangesOwn(Run(Initial(initial), events, allowed))
  }

  ghost predicate StartsNeverMix(allowed: seq<string>) {
    forall initial, events :: StartsOwn(Run(Initial(initial), events, allowed))
  }

  /** The configurations for which no interleaving makes a code exchange, or an authorization URL, name
      another login's redirect URI: for both exactly those whose allowed URIs are all the same up to
      surrounding space. (An allowed URI is never empty.) */
  lemma URIsStayOwnExactlyWhenOneURI(allowed: seq<string>)
    requires "" !in allowed
    ensures ExchangesNeverMix(allowed) <==> forall u, v :: u in allowed && v in allowed ==> TrimSpace(u) == TrimSpace(v)
    ensures StartsNeverMix(allowed) <==> forall u, v :: u in allowed && v in allowed ==> TrimSpace(u) == TrimSpace(v)
  {
    hide TrimSpace, ExchangesOwn, StartsOwn, Run;
    if forall u, v :: u in allowed && v in allowed ==> TrimSpace(u) == TrimSpace(v) {
      var t := if allowed == [] then "" else TrimSpace(allowed[0]);
      forall initial, events
        ensures ExchangesOwn(Run(Initial(initial), events, allowed)) &&
                StartsOwn(Run(Initial(initial), events, allowed))
      {
        OneURINeverMixes(initial, events, allowed, t);
      }
    } else {
      var u, v :| u in allowed && v in allowed && TrimSpace(u) != TrimSpace(v);
      TwoURIsCanMix("", u, v, allowed);
      TwoStartsCanMix("", u, v, allowed);
    }
  }
}
