// StartAuthentication and HandleCallback from beginning to end: as functions, as the runs of the
// interleaved machine nobody else takes part in, and as the methods that are written.

module OAuthOperations {
  import opened Prelude
  import opened Domain
  import opened CacheKeys
  import opened RedisValues
  import opened Stores
  import opened Shells
  import opened Sessions
  import opened OAuth

  /** What the client is redirected to. */
  datatype AuthURL = AuthURL(state: string, redirectURI: string)

  datatype LoginResult = LoginResult(session: string, shell: ShellType)

  datatype TokenRequest = TokenRequest(code: string, redirectURI: string)

  /** What Redis and GitHub contribute to a whole callback. */
  datatype CallbackAnswers = CallbackAnswers(
    take: Fault, tokenGranted: bool, user: Option<GitHubUser>, permissions: Option<Permissions>, uuid: string,
      save: Fault)

  /** Redis, the provider's URI and the answer. */
  function StartAuthentication(cache: Cache, redirectURI: string, allowed: seq<string>, repository: Option<Repo>,
                               uri: string,
                               shell: ShellType, uuid: string, f: Fault): (Cache, string, Result<AuthURL, Error>)
  {
    match CheckStart(allowed, repository, uri)
    case Err(e) => (cache, redirectURI, Err(e))
    case Ok(repo) =>
      var cache' := WriteCache(cache, OIDCStateKey(uuid), StateV(StateRecord(repo, uri, shell)), f);
      if f != Fine then (cache', redirectURI, Err(StateSaveFailed))
      else (cache', TrimSpace(uri), Ok(AuthURL(uuid, TrimSpace(uri))))
  }

  /** What follows once GitHub has been asked for a token. */
  function Login(cache: Cache, repository: Repo, shell: ShellType, a: CallbackAnswers)
    : (Cache, Result<LoginResult, Error>)
  {
    if !a.tokenGranted then (cache, Err(CodeExchangeFailed))
    else if a.user.None? then (cache, Err(UserInfoFailed))
    else
      match NewLogin(repository, a.user.value, a.permissions)
      case Err(e) => (cache, Err(e))
      case Ok(login) =>
        (WriteCache(cache, SessionKey(a.uuid), SessionV(Stored(login)), a.save),
         if a.save == Fine then Ok(LoginResult(a.uuid, shell)) else Err(SessionFailed))
  }

  /** Redis, the provider's URI, the token request that was sent, if any, and the answer. */
  function HandleCallback(cache: Cache, redirectURI: string, code: string, state: string, a: CallbackAnswers)
    : (Cache, string, Option<TokenRequest>, Result<LoginResult, Error>)
  {
    if code == "" then (cache, redirectURI, None, Err(InvalidCode))
    else if state == "" then (cache, redirectURI, None, Err(InvalidState))
    else
      var (cache', found) := TakeState(cache, state, a.take);
      match found
      case Err(e) => (cache', redirectURI, None, Err(e))
      case Ok(dto) =>
        match NewRepositoryIdentifier(dto.repository)
        case Err(e) => (cache', redirectURI, None, Err(e))
        case Ok(repository) =>
          var uri := TrimSpace(dto.redirectURI);
          var (cache'', r) := Login(cache', repository, StoredShell(dto), a);
          (cache'', uri, Some(TokenRequest(code, uri)), r)
  }

  // ---------- when they succeed, and what they leave ----------

  /** A start succeeds exactly for a repository and an allowed redirect URI, if the state is saved. It
      then leaves the state's record, sets the URI and answers with both; what it refuses has no effect. */
  lemma StartSucceedsExactlyWhen(cache: Cache, redirectURI: string, allowed: seq<string>, repository: Option<Repo>,
                                 uri: string, shell: ShellType, uuid: string, f: Fault)
    ensures var (cache', uri', r) := StartAuthentication(cache, redirectURI, allowed, repository, uri, shell, uuid, f);
      && (r.Ok? <==> repository.Some? && uri != "" && uri in allowed && f == Fine)
      && (r.Ok? ==> r.value == AuthURL(uuid, uri') && uri' == TrimSpace(uri) &&
                    TakeState(cache', uuid, Fine).1 ==
                      Ok(OAuthStateDTO(repository.value.owner + "/" + repository.value.name, uri, shell)))
      && (r.Err? ==> uri' == redirectURI && (f != Unacked ==> cache' == cache))
      && (r == Err(NilRepository) <==> repository.None?)
      && (r == Err(InvalidRedirectURI) <==> repository.Some? && (uri == "" || uri !in allowed))
      && (r == Err(StateSaveFailed) <==> repository.Some? && uri != "" && uri in allowed && f != Fine)
  {
    hide TrimSpace;
  }

  /** A callback succeeds exactly for a live state, a code GitHub grants a token for, and a user whom
      GitHub names and lets read the repository. Whatever comes of it, the state is gone if Redis took
      the command; and what it leaves in Redis is the session of that user: the subject is the GitHub
      id in base ten, the flags are those GitHub answered. */
  lemma CallbackSucceedsExactlyWhen(cache: Cache, redirectURI: string, code: string, state: string, a: CallbackAnswers)
    ensures var (cache', _, _, r) := HandleCallback(cache, redirectURI, code, state, a);
      var stored := TakeState(cache, state, a.take).1; var p := a.permissions;
      && (r.Ok? <==>
          && code != "" && state != "" && stored.Ok? && NewRepositoryIdentifier(stored.value.repository).Ok?
          && a.tokenGranted && a.user.Some? && p.Some? && a.save == Fine
          && (p.value.pull || p.value.push || p.value.admin || p.value.maintain || p.value.triage))
      && (r.Ok? ==>
          && r.value == LoginResult(a.uuid, StoredShell(stored.value)) && SessionKey(a.uuid) in cache'
          && cache'[SessionKey(a.uuid)] ==
             SessionV(UserInfoDTO(FormatInt(a.user.value.id), "", a.user.value.name, "github",
                                  stored.value.repository, "", p.value.admin, p.value.push, p.value.pull,
                                  p.value.maintain, p.value.triage)))
      && (code != "" && state != "" && a.take != Lost ==> OIDCStateKey(state) !in cache')
  {
    hide NewRepositoryIdentifier, FormatInt, TrimSpace, StoredShell, SessionKey, OIDCStateKey;
    var stored := TakeState(cache, state, a.take).1;
    if stored.Ok? && NewRepositoryIdentifier(stored.value.repository).Ok? {
      RepositoryRoundTrip(stored.value.repository, NewRepositoryIdentifier(stored.value.repository).value);
    }
    KeysInjective(State, state, Family.Session, a.uuid);
    assert Key(State, state) == OIDCStateKey(state) && Key(Family.Session, a.uuid) == SessionKey(a.uuid);
  }

  /** How a callback fails, in the order in which it asks; and the one token request it sends, with its
      own code and the redirect URI of the state it took. */
  lemma CallbackFailures(cache: Cache, redirectURI: string, code: string, state: string, a: CallbackAnswers)
    ensures var (_, uri', request, r) := HandleCallback(cache, redirectURI, code, state, a);
      var stored := TakeState(cache, state, a.take).1;
      var taken := code != "" && state != "" && stored.Ok? && NewRepositoryIdentifier(stored.value.repository).Ok?;
      var mayRead := a.permissions.Some? && a.permissions.value.CanDownload();
      && (r == Err(InvalidCode) <==> code == "")
      && (r == Err(InvalidState) <==> code != "" && (state == "" || stored.Err?))
      && (taken ==> request == Some(TokenRequest(code, TrimSpace(stored.value.redirectURI))) &&
                    uri' == TrimSpace(stored.value.redirectURI))
      && (!taken ==> request.None? && uri' == redirectURI)
      && (r == Err(CodeExchangeFailed) <==> taken && !a.tokenGranted)
      && (r == Err(UserInfoFailed) <==> taken && a.tokenGranted && a.user.None?)
      && (r == Err(AccessCheckFailed) <==> taken && a.tokenGranted && a.user.Some? && a.permissions.None?)
      && (r == Err(AccessDenied) <==> taken && a.tokenGranted && a.user.Some? && a.permissions.Some? && !mayRead)
      && (r == Err(SessionFailed) <==> taken && a.tokenGranted && a.user.Some? && mayRead && a.save != Fine)
  {
    hide FormatInt, TrimSpace, StoredShell, SessionKey, OIDCStateKey, NewRepositoryIdentifier;
    var stored := TakeState(cache, state, a.take).1;
    if stored.Ok? {
      IdentifiersFailAlike(stored.value.repository);
    }
  }

  lemma IdentifiersFailAlike(s: string)
    ensures NewRepositoryIdentifier(s).Err? ==> NewRepositoryIdentifier(s).error == InvalidRepositoryFormat
  {
  }

  // ---------- a request alone ----------

  function Steps(pid: nat, answers: seq<Answers>): seq<Event>
    decreases |answers|
  {
    if answers == [] then [] else [Step(pid, answers[0])] + Steps(pid, answers[1..])
  }

  function Walk(s: System, pid: nat, answers: seq<Answers>, allowed: seq<string>): (s': System)
    requires pid in s.procs
    ensures pid in s'.procs
    decreases |answers|
  {
    if answers == [] then s else Walk(Advance(s, pid, allowed, answers[0]), pid, answers[1..], allowed)
  }

  lemma {:induction false} WalkIsRun(s: System, pid: nat, answers: seq<Answers>, allowed: seq<string>)
    requires pid in s.procs
    ensures Run(s, Steps(pid, answers), allowed) == Walk(s, pid, answers, allowed)
    decreases |answers|
  {
    hide Advance;
    if answers != [] {
      RunNext(s, Step(pid, answers[0]), Steps(pid, answers[1..]), allowed);
      WalkIsRun(Advance(s, pid, allowed, answers[0]), pid, answers[1..], allowed);
    }
  }

  /** The answers in the order a callback needs them. */
  function Script(a: CallbackAnswers): seq<Answers> {
    var blank := Answers(Fine, a.uuid, a.tokenGranted, a.user, a.permissions);
    [blank.(fault := a.take), blank, blank, blank, blank, blank.(fault := a.save)]
  }

  function Joined(s: System, pid: nat, req: Request): System {
    s.(procs := s.procs[pid := Process(req, Begin, None, None)])
  }

  /** The cases of a step, one by one. */
  lemma StepCases(s: System, pid: nat, allowed: seq<string>, a: Answers)
    requires pid in s.procs
    ensures var p, s' := s.procs[pid], Advance(s, pid, allowed, a);
      && (p.next.Begin? ==> s' == if p.req.Start? then SaveState(s, pid, allowed, a) else ConsumeState(s, pid, a))
      && (p.next.PointStart? && p.req.Start? ==>
          s' == Goto(s.(redirectURI := TrimSpace(p.req.redirectURI)), pid, BuildURL(p.next.state)))
      && (p.next.BuildURL? ==> s' == Send(s, pid, Done(Started(p.next.state, s.redirectURI))))
      && (p.next.PointCallback? ==>
          s' == Goto(s.(redirectURI := TrimSpace(p.next.uri)), pid, Exchange(p.next.repository, p.next.shell)))
      && (p.next.Exchange? ==>
          s' == Send(s, pid, if a.tokenGranted then Identify(p.next.repository, p.next.shell)
                     else Done(Failed(CodeExchangeFailed))))
      && (p.next.Identify? && a.user.Some? ==>
          s' == Hear(s, pid, Inspect(p.next.repository, p.next.shell, a.user.value), a.user, None))
      && (p.next.Identify? && a.user.None? ==> s' == Hear(s, pid, Done(Failed(UserInfoFailed)), None, None))
      && (p.next.OpenSession? ==> s' == CreateSession(s, pid, p.next.login, p.next.shell, a))
      && (p.next.Done? ==> s' == s)
  {
    hide SaveState, ConsumeState, CreateSession, Goto, Send, Hear, NewLogin, TrimSpace;
  }

  lemma InspectCase(s: System, pid: nat, allowed: seq<string>, a: Answers)
    requires pid in s.procs && s.procs[pid].next.Inspect?
    ensures var next := s.procs[pid].next;
      var login := NewLogin(next.repository, next.user, a.permissions);
      Advance(s, pid, allowed, a) ==
      Hear(s, pid, if login.Ok? then OpenSession(login.value, next.shell) else Done(Failed(login.error)),
           s.procs[pid].user, a.permissions)
  {
    hide SaveState, ConsumeState, CreateSession, Goto, Send, Hear, NewLogin, TrimSpace;
  }

  lemma SaveStep(s: System, pid: nat, allowed: seq<string>, a: Answers)
    requires pid in s.procs && s.procs[pid].req.Start? && a.uuid !in s.issued
    ensures var req, s' := s.procs[pid].req, SaveState(s, pid, allowed, a);
      var checked := CheckStart(allowed, req.repository, req.redirectURI);
      && s'.redirectURI == s.redirectURI
      && s'.cache == (if checked.Err? then s.cache
                      else WriteCache(s.cache, OIDCStateKey(a.uuid),
                                      StateV(StateRecord(checked.value, req.redirectURI, req.shell)), a.fault))
      && s'.procs[pid].next == (if checked.Err? then Done(Failed(checked.error))
                                else if a.fault == Fine then PointStart(a.uuid) else Done(Failed(StateSaveFailed)))
  {
    hide CheckStart, StateRecord, OIDCStateKey;
  }

  /** The two steps after the save. */
  lemma URLIsAWalk(s: System, pid: nat, allowed: seq<string>, a: Answers)
    requires pid in s.procs && s.procs[pid].req.Start? && (s.procs[pid].next.PointStart? || s.procs[pid].next.Done?)
    ensures var p, s' := s.procs[pid], Walk(s, pid, [a, a], allowed);
      && s'.cache == s.cache
      && s'.redirectURI == (if p.next.Done? then s.redirectURI else TrimSpace(p.req.redirectURI))
      && s'.procs[pid].next == if p.next.Done? then p.next
        else Done(Started(p.next.state, TrimSpace(p.req.redirectURI)))
  {
    hide Advance, TrimSpace;
    StepCases(s, pid, allowed, a);
    var s2 := Advance(s, pid, allowed, a);
    StepCases(s2, pid, allowed, a);
    assert [a, a][1..] == [a] && [a][1..] == [];
    assert Walk(s, pid, [a, a], allowed) == Walk(s2, pid, [a], allowed) == Advance(s2, pid, allowed, a);
  }

  /** A start nobody interferes with is StartAuthentication; the URL it answers with carries its own
      redirect URI. */
  lemma StartIsARun(s: System, pid: nat, repository: Option<Repo>, uri: string, shell: ShellType, allowed: seq<string>,
                    a: Answers)
    requires pid !in s.procs && a.uuid !in s.issued
    ensures var req := Start(repository, uri, shell);
      var s' := Run(s, [Arrive(pid, req)] + Steps(pid, [a, a, a]), allowed);
      var (cache, redirectURI, r) := StartAuthentication(s.cache, s.redirectURI, allowed, repository, uri, shell,
                                                         a.uuid, a.fault);
      && pid in s'.procs && s'.cache == cache && s'.redirectURI == redirectURI
      && s'.procs[pid].next == Done(if r.Ok? then Started(r.value.state, r.value.redirectURI) else Failed(r.error))
  {
    hide Advance, CheckStart, TrimSpace, StateRecord, OIDCStateKey, SaveState, Steps;
    var req := Start(repository, uri, shell);
    var s1 := Joined(s, pid, req);
    RunNext(s, Arrive(pid, req), Steps(pid, [a, a, a]), allowed);
    WalkIsRun(s1, pid, [a, a, a], allowed);
    StepCases(s1, pid, allowed, a);
    SaveStep(s1, pid, allowed, a);
    assert [a, a, a][1..] == [a, a];
    assert Walk(s1, pid, [a, a, a], allowed) == Walk(Advance(s1, pid, allowed, a), pid, [a, a], allowed);
    URLIsAWalk(Advance(s1, pid, allowed, a), pid, allowed, a);
  }

  /** The last step of a callback. */
  lemma LastStep(s: System, pid: nat, login: User, shell: ShellType, allowed: seq<string>, a: Answers)
    requires pid in s.procs && s.procs[pid].next == OpenSession(login, shell) && a.uuid !in s.issued
    ensures var s' := Advance(s, pid, allowed, a);
      && s'.cache == WriteCache(s.cache, SessionKey(a.uuid), SessionV(Stored(login)), a.fault)
      && s'.redirectURI == s.redirectURI && s'.procs[pid].sent == s.procs[pid].sent
      && s'.procs[pid].next == Done(if a.fault == Fine then LoggedIn(a.uuid, shell) else Failed(SessionFailed))
      && s'.procs[pid].user == s.procs[pid].user && s'.procs[pid].permissions == s.procs[pid].permissions
  {
    hide Advance, SessionKey, Stored;
    StepCases(s, pid, allowed, a);
  }

  /** The last four steps of a callback. */
  lemma LoginIsAWalk(s: System, pid: nat, repository: Repo, shell: ShellType, allowed: seq<string>, a: CallbackAnswers)
    requires pid in s.procs && s.procs[pid].next == Exchange(repository, shell) && a.uuid !in s.issued
    ensures var s' := Walk(s, pid, Script(a)[2..], allowed);
      var (cache, r) := Login(s.cache, repository, shell, a);
      && s'.cache == cache && s'.redirectURI == s.redirectURI && s'.procs[pid].sent == Some(s.redirectURI)
      && s'.procs[pid].next == Done(if r.Ok? then LoggedIn(r.value.session, r.value.shell) else Failed(r.error))
      && (r.Ok? ==> s'.procs[pid].user == a.user && s'.procs[pid].permissions == a.permissions)
  {
    hide Advance, NewLogin, Stored, SessionKey;
    var blank := Answers(Fine, a.uuid, a.tokenGranted, a.user, a.permissions);
    var last := blank.(fault := a.save);
    var xs := Script(a)[2..];
    assert xs == [blank, blank, blank, last] && xs[1..] == [blank, blank, last] && xs[1..][1..] == [blank, last];
    var s2 := Advance(s, pid, allowed, blank);
    StepCases(s, pid, allowed, blank);
    if !a.tokenGranted {
      DoneStays(s2, pid, xs[1..], allowed);
    } else {
      var s3 := Advance(s2, pid, allowed, blank);
      StepCases(s2, pid, allowed, blank);
      assert Walk(s2, pid, xs[1..], allowed) == Walk(s3, pid, [blank, last], allowed);
      if a.user.None? {
        DoneStays(s3, pid, [blank, last], allowed);
      } else {
        InspectIsAWalk(s3, pid, allowed, blank, last);
      }
    }
  }

  lemma InspectIsAWalk(s: System, pid: nat, allowed: seq<string>, blank: Answers, last: Answers)
    requires pid in s.procs && s.procs[pid].next.Inspect? && last.uuid !in s.issued
    ensures var next := s.procs[pid].next;
      var login := NewLogin(next.repository, next.user, blank.permissions);
      var s' := Walk(s, pid, [blank, last], allowed);
      && s'.redirectURI == s.redirectURI && s'.procs[pid].sent == s.procs[pid].sent
      && s'.cache == (if login.Ok? then WriteCache(s.cache, SessionKey(last.uuid), SessionV(Stored(login.value)),
                                                   last.fault) else s.cache)
      && s'.procs[pid].next == Done(if login.Err? then Failed(login.error)
                                    else if last.fault == Fine then LoggedIn(last.uuid, next.shell)
                                      else Failed(SessionFailed))
      && s'.procs[pid].user == s.procs[pid].user && s'.procs[pid].permissions == blank.permissions
  {
    hide Advance, NewLogin, Stored, SessionKey;
    var next := s.procs[pid].next;
    var s2 := Advance(s, pid, allowed, blank);
    InspectCase(s, pid, allowed, blank);
    assert [blank, last][1..] == [last] && [last][1..] == [];
    assert Walk(s, pid, [blank, last], allowed) == Walk(s2, pid, [last], allowed) == Advance(s2, pid, allowed, last);
    if s2.procs[pid].next.Done? {
      StepCases(s2, pid, allowed, last);
    } else {
      LastStep(s2, pid, s2.procs[pid].next.login, next.shell, allowed, last);
    }
  }

  lemma TakeStep(s: System, pid: nat, a: Answers)
    requires pid in s.procs && s.procs[pid].req.Callback?
    ensures var req, s' := s.procs[pid].req, ConsumeState(s, pid, a);
      s'.redirectURI == s.redirectURI && s'.issued == s.issued && s'.procs[pid].sent == s.procs[pid].sent
    ensures var req, s' := s.procs[pid].req, ConsumeState(s, pid, a);
      s'.cache == if req.code == "" || req.state == "" then s.cache else TakeState(s.cache, req.state, a.fault).0
    ensures var req, s' := s.procs[pid].req, ConsumeState(s, pid, a);
      var found := TakeState(s.cache, req.state, a.fault).1;
      s'.procs[pid].next ==
         if req.code == "" then Done(Failed(InvalidCode))
         else if req.state == "" then Done(Failed(InvalidState))
         else if found.Err? then Done(Failed(found.error))
         else
           match NewRepositoryIdentifier(found.value.repository)
           case Err(e) => Done(Failed(e))
           case Ok(repository) => PointCallback(repository, found.value.redirectURI, StoredShell(found.value))
  {
    hide TakeState, StoredShell, NewRepositoryIdentifier;
    var req := s.procs[pid].req;
    if req.code != "" && req.state != "" {
      var (cache, found) := TakeState(s.cache, req.state, a.fault);
      if found.Ok? && NewRepositoryIdentifier(found.value.repository).Ok? {
        var repository := NewRepositoryIdentifier(found.value.repository).value;
        var next := PointCallback(repository, found.value.redirectURI, StoredShell(found.value));
        assert ConsumeState(s, pid, a) == Goto(s.(cache := cache, taken := s.taken[req.state := pid]), pid, next);
      }
    }
  }

  /** The first two steps of a callback. */
  lemma TakingIsAWalk(s: System, pid: nat, allowed: seq<string>, a: Answers, b: Answers)
    requires pid in s.procs && s.procs[pid].next.Begin? && s.procs[pid].req.Callback?
    ensures var s', s2 := Advance(Advance(s, pid, allowed, a), pid, allowed, b), ConsumeState(s, pid, a);
      && s'.issued == s.issued && s'.procs[pid].sent == s.procs[pid].sent && s'.cache == s2.cache
      && (if s2.procs[pid].next.Done? then s' == s2
          else
            var held := s2.procs[pid].next;
            held.PointCallback? && s'.redirectURI == TrimSpace(held.uri) && s'.procs[pid].next ==
              Exchange(held.repository, held.shell))
  {
    hide Advance, TrimSpace, TakeState, StoredShell, NewRepositoryIdentifier, ConsumeState;
    StepCases(s, pid, allowed, a);
    TakeStep(s, pid, a);
    StepCases(Advance(s, pid, allowed, a), pid, allowed, b);
  }

  /** A callback nobody interferes with is HandleCallback; its code exchange names the redirect URI of
      the state it took, and what it is on record for is what GitHub answered. */
  lemma CallbackIsARun(s: System, pid: nat, code: string, state: string, allowed: seq<string>, a: CallbackAnswers)
    requires pid !in s.procs && a.uuid !in s.issued
    ensures var req := Callback(code, state);
      var s' := Run(s, [Arrive(pid, req)] + Steps(pid, Script(a)), allowed);
      var (cache, redirectURI, request, r) := HandleCallback(s.cache, s.redirectURI, code, state, a);
      && pid in s'.procs && s'.cache == cache && s'.redirectURI == redirectURI
      && s'.procs[pid].sent == (if request.Some? then Some(request.value.redirectURI) else None)
      && s'.procs[pid].next == Done(if r.Ok? then LoggedIn(r.value.session, r.value.shell) else Failed(r.error))
      && (r.Ok? ==> s'.procs[pid].user == a.user && s'.procs[pid].permissions == a.permissions)
  {
    hide Advance, TrimSpace, TakeState, StoredShell, NewRepositoryIdentifier, Login, Steps, ConsumeState;
    var req := Callback(code, state);
    var xs := Script(a);
    var s1 := Joined(s, pid, req);
    RunNext(s, Arrive(pid, req), Steps(pid, xs), allowed);
    WalkIsRun(s1, pid, xs, allowed);
    TakeStep(s1, pid, xs[0]);
    TakingIsAWalk(s1, pid, allowed, xs[0], xs[1]);
    var s2 := Advance(s1, pid, allowed, xs[0]);
    var s3 := Advance(s2, pid, allowed, xs[1]);
    assert xs[1..][0] == xs[1] && xs[1..][1..] == xs[2..];
    assert Walk(s1, pid, xs, allowed) == Walk(s2, pid, xs[1..], allowed) == Walk(s3, pid, xs[2..], allowed);
    if s3.procs[pid].next.Done? {
      DoneStays(s3, pid, xs[2..], allowed);
    } else {
      LoginIsAWalk(s3, pid, s3.procs[pid].next.repository, s3.procs[pid].next.shell, allowed, a);
    }
  }

  lemma {:induction false} DoneStays(s: System, pid: nat, answers: seq<Answers>, allowed: seq<string>)
    requires pid in s.procs && s.procs[pid].next.Done?
    ensures Walk(s, pid, answers, allowed) == s
    decreases |answers|
  {
    if answers != [] {
      DoneStays(s, pid, answers[1..], allowed);
    }
  }
}

module OAuthUseCase {
  import opened Prelude
  import opened Domain
  import opened CacheKeys
  import opened RedisValues
  import opened Stores
  import opened Redis
  import opened Shells
  import opened Sessions
  import opened OAuth
  import opened OAuthOperations

  class OAuthStateStore {
    const client: RedisClient

    constructor (client: RedisClient)
      ensures this.client == client
    {
      this.client := client;
    }

    method SaveState(state: string, data: OAuthStateDTO, ttl: int, f: Fault) returns (ok: bool)
      modifies client`entries
      ensures client.entries == SetEntry(old(client.entries), client.now, OIDCStateKey(state), StateV(data), ttl, f)
      ensures client.Contents() == WriteCache(old(client.Contents()), OIDCStateKey(state), StateV(data), f)
      ensures ok == (f == Fine)
    {
      ok := client.Set(OIDCStateKey(state), StateV(data), ttl, f);
    }

    /** The shell comes back parsed. */
    method GetAndDeleteState(state: string, f: Fault) returns (r: Result<OAuthStateDTO, Error>)
      modifies client`entries
      ensures client.entries == RemoveEntry(old(client.entries), OIDCStateKey(state), f)
      ensures client.Contents() == TakeState(old(client.Contents()), state, f).0
      ensures var found := TakeState(old(client.Contents()), state, f).1;
        r == if found.Ok? then Ok(found.value.(shell := StoredShell(found.value))) else found
    {
      var got := client.GetDel(OIDCStateKey(state), f);
      if got.Err? || !got.value.StateV? {
        return Err(InvalidState);
      }
      var dto := got.value.state;
      var shellType: ShellType := "";
      if dto.shell != "" {
        var parsed := ParseShellType(dto.shell);
        if parsed.Ok? {
          shellType := parsed.value;
        }
      }
      return Ok(dto.(shell := shellType));
    }
  }

  /** The provider: one redirect URI for everybody. `sent` lists the token requests it has made. */
  class GitHubOAuthProvider {
    var redirectURI: string
    var sent: seq<TokenRequest>

    constructor (redirectURI: string)
      ensures this.redirectURI == TrimSpace(redirectURI) && sent == []
    {
      this.redirectURI, sent := TrimSpace(redirectURI), [];
    }

    method SetRedirectURI(uri: string)
      modifies this`redirectURI
      ensures redirectURI == TrimSpace(uri)
    {
      redirectURI := TrimSpace(uri);
    }

    method GetAuthorizationURL(state: string) returns (url: AuthURL)
      ensures url == AuthURL(state, redirectURI)
    {
      url := AuthURL(state, redirectURI);
    }

    method ExchangeCode(code: string, granted: bool) returns (ok: bool)
      modifies this`sent
      ensures sent == old(sent) + [TokenRequest(code, redirectURI)] && ok == granted
    {
      sent := sent + [TokenRequest(code, redirectURI)];
      ok := granted;
    }
  }

  class GitHubOAuthUseCase {
    const provider: GitHubOAuthProvider
    const sessionStore: SessionStore
    const stateStore: OAuthStateStore
    const allowed: seq<string>

    ghost predicate Wired() {
      sessionStore.client == stateStore.client
    }

    constructor (provider: GitHubOAuthProvider, sessionStore: SessionStore, stateStore: OAuthStateStore,
                 allowed: seq<string>)
      requires sessionStore.client == stateStore.client
      ensures Wired() && this.provider == provider && this.stateStore == stateStore && this.allowed == allowed
    {
      this.provider, this.sessionStore, this.stateStore, this.allowed := provider, sessionStore, stateStore, allowed;
    }

    method Start(repository: Option<Repo>, redirectURI: string, shell: ShellType, uuid: string, f: Fault)
      returns (r: Result<AuthURL, Error>)
      modifies stateStore.client`entries, provider`redirectURI
      ensures (stateStore.client.Contents(), provider.redirectURI, r) ==
              StartAuthentication(old(stateStore.client.Contents()), old(provider.redirectURI), allowed, repository,
                                  redirectURI, shell, uuid, f)
      ensures r.Ok? ==> OIDCStateKey(uuid) in stateStore.client.entries &&
                        stateStore.client.entries[OIDCStateKey(uuid)].deadline ==
                          Some(stateStore.client.now + 10 * 60)
    {
      if repository.None? {
        return Err(NilRepository);
      }
      if redirectURI == "" {
        return Err(InvalidRedirectURI);
      }
      if redirectURI !in allowed {
        return Err(InvalidRedirectURI);
      }
      var ok := stateStore.SaveState(uuid, OAuthStateDTO(repository.value.FullName(), redirectURI, shell), STATE_TTL,
                                     f);
      if !ok {
        return Err(StateSaveFailed);
      }
      provider.SetRedirectURI(redirectURI);
      var url := provider.GetAuthorizationURL(uuid);
      return Ok(url);
    }

    method Callback(code: string, state: string, a: CallbackAnswers) returns (r: Result<LoginResult, Error>)
      requires Wired()
      modifies stateStore.client`entries, provider
      ensures var (cache, uri, request, result) :=
          HandleCallback(old(stateStore.client.Contents()), old(provider.redirectURI), code, state, a);
        && stateStore.client.Contents() == cache && provider.redirectURI == uri && r == result
        && provider.sent == old(provider.sent) + (if request.Some? then [request.value] else [])
      ensures r.Ok? ==> SessionKey(a.uuid) in stateStore.client.entries &&
                        stateStore.client.entries[SessionKey(a.uuid)].deadline ==
                          Some(stateStore.client.now + 24 * 60 * 60)
    {
      hide NewRepositoryIdentifier, TrimSpace, FormatInt, OIDCStateKey, SessionKey;
      if code == "" {
        return Err(InvalidCode);
      }
      if state == "" {
        return Err(InvalidState);
      }
      var stateData := stateStore.GetAndDeleteState(state, a.take);
      if stateData.Err? {
        return Err(stateData.error);
      }
      var parsed := NewRepositoryIdentifier(stateData.value.repository);
      if parsed.Err? {
        return Err(parsed.error);
      }
      provider.SetRedirectURI(stateData.value.redirectURI);
      var granted := provider.ExchangeCode(code, a.tokenGranted);
      if !granted {
        return Err(CodeExchangeFailed);
      }
      if a.user.None? {
        return Err(UserInfoFailed);
      }
      if a.permissions.None? {
        return Err(AccessCheckFailed);
      }
      if !a.permissions.value.CanDownload() {
        return Err(AccessDenied);
      }
      var userInfo := new UserInfo(FormatInt(a.user.value.id), "", a.user.value.name, GITHUB, Some(parsed.value), "");
      userInfo.SetPermissions(a.permissions);
      var created := sessionStore.CreateSession(a.uuid, userInfo, SESSION_TTL, a.save);
      if created.Err? {
        return Err(SessionFailed);
      }
      return Ok(LoginResult(created.value, stateData.value.shell));
    }
  }
}
