// The GitHub login: starts and callbacks of any number of users, interleaved over one Redis and one
// provider object whose redirect URI they all share.

module Shells {
  import opened Prelude
  import opened Domain

  /** The values a ShellType can have; the zero value is the empty string. */
  predicate ShellValue(s: string) {
    s == "" || s == "bash" || s == "zsh" || s == "powershell"
  }

  type ShellType = s: string | ShellValue(s) witness ""

  function ParseShellType(s: string): Result<ShellType, Error> {
    if s == "" || s == "bash" then Ok("bash")
    else if s == "zsh" then Ok("zsh")
    else if s == "powershell" then Ok("powershell")
    else Err(InvalidShell)
  }

  lemma ShellsAreParsed(s: string)
    ensures ParseShellType(s) ==
            if s == "" then Ok("bash") else if s in {"bash", "zsh", "powershell"} then Ok(s) else Err(InvalidShell)
  {
  }

  // ---------- strings.TrimSpace ----------

  predicate IsSpace(c: char) {
    '\t' <= c <= '\r' || c == ' ' || c == '\U{0085}' || c == '\U{00A0}' || c == '\U{1680}' ||
    '\U{2000}' <= c <= '\U{200A}' ||
    c == '\U{2028}' || c == '\U{2029}' || c == '\U{202F}' || c == '\U{205F}' || c == '\U{3000}'
  }

  const WHITE_SPACE := "\t\n\U{000B}\U{000C}\r \U{0085}\U{00A0}\U{1680}\U{2028}\U{2029}\U{202F}\U{205F}\U{3000}"

  /** White space is what Unicode calls so; the eleven spaces from U+2000 on are a run. */
  lemma SpaceIsUnicodes(c: char)
    ensures IsSpace(c) <==> c in WHITE_SPACE || 0x2000 <= c as int <= 0x200A
  {
    if '\t' <= c <= '\r' {
      assert WHITE_SPACE[c as int - 9] == c;
    }
  }

  function TrimLeft(s: string): string {
    if s != "" && IsSpace(s[0]) then TrimLeft(s[1..]) else s
  }

  function TrimRight(s: string): string {
    if s != "" && IsSpace(s[|s| - 1]) then TrimRight(s[..|s| - 1]) else s
  }

  function TrimSpace(s: string): string {
    TrimRight(TrimLeft(s))
  }

  predicate AllSpace(s: string) {
    forall i :: 0 <= i < |s| ==> IsSpace(s[i])
  }

  lemma {:induction false} TrimLeftIsExact(s: string) returns (p: string)
    ensures s == p + TrimLeft(s) && AllSpace(p)
    ensures TrimLeft(s) != "" ==> !IsSpace(TrimLeft(s)[0])
  {
    p := "";
    if s != "" && IsSpace(s[0]) {
      var rest := TrimLeftIsExact(s[1..]);
      p := [s[0]] + rest;
    }
  }

  lemma {:induction false} TrimRightIsExact(s: string) returns (q: string)
    ensures s == TrimRight(s) + q && AllSpace(q)
    ensures TrimRight(s) != "" ==> !IsSpace(TrimRight(s)[|TrimRight(s)| - 1])
    decreases |s|
  {
    q := "";
    if s != "" && IsSpace(s[|s| - 1]) {
      var rest := TrimRightIsExact(s[..|s| - 1]);
      q := rest + [s[|s| - 1]];
    }
  }

  /** What is cut off is space, at both ends, and no more of it is left there. */
  lemma TrimSpaceIsExact(s: string) returns (p: string, q: string)
    ensures s == p + TrimSpace(s) + q && AllSpace(p) && AllSpace(q)
    ensures var t := TrimSpace(s); t != "" ==> !IsSpace(t[0]) && !IsSpace(t[|t| - 1])
  {
    p := TrimLeftIsExact(s);
    q := TrimRightIsExact(TrimLeft(s));
    assert TrimLeft(s) == TrimSpace(s) + q;
    assert TrimSpace(s) != "" ==> TrimSpace(s)[0] == TrimLeft(s)[0];
  }

  // ---------- strconv.FormatInt, base 10 ----------

  function Decimal(n: nat): (s: string)
    ensures s != ""
  {
    (if n < 10 then "" else Decimal(n / 10)) + ['0' + (n % 10) as char]
  }

  function FormatInt(n: int): (s: string)
    ensures s != ""
  {
    if n < 0 then "-" + Decimal(-n) else Decimal(n)
  }

  /** The number a decimal numeral stands for. */
  function Numeral(s: string): int {
    if s == "" then 0 else Numeral(s[..|s| - 1]) * 10 + (s[|s| - 1] as int - '0' as int)
  }

  lemma {:induction false} DecimalRoundTrip(n: nat)
    ensures Numeral(Decimal(n)) == n
    ensures forall i :: 0 <= i < |Decimal(n)| ==> '0' <= Decimal(n)[i] <= '9'
    ensures Decimal(n)[0] == '0' <==> n == 0
  {
    if n >= 10 {
      DecimalRoundTrip(n / 10);
      assert Decimal(n)[..|Decimal(n)| - 1] == Decimal(n / 10);
      assert Decimal(n)[0] == Decimal(n / 10)[0];
    } else {
      assert Decimal(n) == ['0' + n as char];
    }
  }

  /** The text is the number in base ten, and different numbers have different texts. */
  lemma FormatIntRoundTrip(n: int, m: int)
    ensures var s := FormatInt(n); n == if s[0] == '-' then -Numeral(s[1..]) else Numeral(s)
    ensures FormatInt(n) == FormatInt(m) <==> n == m
  {
    DecimalRoundTrip(if n < 0 then -n else n);
    DecimalRoundTrip(if m < 0 then -m else m);
    if n < 0 { assert FormatInt(n)[1..] == Decimal(-n); }
    if m < 0 { assert FormatInt(m)[1..] == Decimal(-m); }
  }
}

module OAuth {
  import opened Prelude
  import opened Domain
  import opened CacheKeys
  import opened RedisValues
  import opened Stores
  import opened Shells
  import opened Sessions

  datatype Request =
    | Start(repository: Option<Repo>, redirectURI: string, shell: ShellType)
    | Callback(code: string, state: string)

  datatype GitHubUser = GitHubUser(id: int, name: string)

  /** What the outside contributes to one step: the fate of the store call, a random UUID, and what
      GitHub answers. */
  datatype Answers = Answers(fault: Fault, uuid: string, tokenGranted: bool, user: Option<GitHubUser>,
                             permissions: Option<Permissions>)

  datatype Outcome =
    | Started(state: string, sentURI: string)
    | LoggedIn(session: string, shell: ShellType)
    | Failed(error: Error)

  /** What a request does next, and what it holds by then. */
  datatype Next =
    | Begin
    | PointStart(state: string)
    | BuildURL(state: string)
    | PointCallback(repository: Repo, uri: string, shell: ShellType)
    | Exchange(repository: Repo, shell: ShellType)
    | Identify(repository: Repo, shell: ShellType)
    | Inspect(repository: Repo, shell: ShellType, user: GitHubUser)
    | OpenSession(login: User, shell: ShellType)
    | Done(outcome: Outcome)

  /** `sent` is the redirect URI the request put into its authorization URL or its code exchange,
      `created` the session it wrote; `user` and `permissions` are what GitHub answered it. */
  datatype Process = Process(
    req: Request, next: Next, sent: Option<string>, created: Option<string>, user: Option<GitHubUser> := None,
    permissions: Option<Permissions> := None)

  datatype SessionRecord = SessionRecord(pid: nat, stored: UserInfoDTO)

  /** The unexpired part of Redis and the provider's redirect URI; and what has happened: the UUIDs
      handed out, the start each state id was saved for, the callback that took it, the sessions
      written. */
  datatype System = System(
    cache: Cache, redirectURI: string,
    issued: set<string>, started: map<string, nat>, taken: map<string, nat>, sessions: map<string, SessionRecord>,
    procs: map<nat, Process>)

  datatype Event =
    | Arrive(pid: nat, req: Request)
    | Step(pid: nat, answers: Answers)
    | Vanish(key: string)
    | Foreign(family: Family, name: string, value: Value)

  // ---------- pieces both requests are made of ----------

  function CheckStart(allowed: seq<string>, repository: Option<Repo>, redirectURI: string): Result<Repo, Error> {
    if repository.None? then Err(NilRepository)
    else if redirectURI == "" then Err(InvalidRedirectURI)
    else if redirectURI !in allowed then Err(InvalidRedirectURI)
    else Ok(repository.value)
  }

  function StateRecord(repository: Repo, redirectURI: string, shell: ShellType): OAuthStateDTO {
    OAuthStateDTO(repository.FullName(), redirectURI, shell)
  }

  /** GetAndDeleteState: what is in Redis afterwards, and the state. */
  function TakeState(cache: Cache, state: string, f: Fault): (Cache, Result<OAuthStateDTO, Error>) {
    var key := OIDCStateKey(state);
    (DeleteKey(cache, key, f), if f == Fine && key in cache && cache[key].StateV? then Ok(cache[key].state)
     else Err(InvalidState))
  }

  /** The shell of a stored state; an unknown one becomes the zero value. */
  function StoredShell(dto: OAuthStateDTO): ShellType {
    if dto.shell != "" && ParseShellType(dto.shell).Ok? then ParseShellType(dto.shell).value else ""
  }

  /** The user a login with these permissions is for. */
  function NewLogin(repository: Repo, user: GitHubUser, permissions: Option<Permissions>): Result<User, Error> {
    if permissions.None? then Err(AccessCheckFailed)
    else if !permissions.value.CanDownload() then Err(AccessDenied)
    else
      match NewUser(FormatInt(user.id), "", user.name, GITHUB, Some(repository), "")
      case Err(e) => Err(e)
      case Ok(u) => Ok(u.(permissions := permissions))
  }

  // ---------- steps ----------

  function Goto(s: System, pid: nat, next: Next): (s': System)
    requires pid in s.procs
    ensures s'.procs.Keys == s.procs.Keys && s'.procs[pid].req == s.procs[pid].req
  {
    s.(procs := s.procs[pid := s.procs[pid].(next := next)])
  }

  /** The next use of the shared redirect URI. */
  function Send(s: System, pid: nat, next: Next): (s': System)
    requires pid in s.procs
    ensures s'.procs.Keys == s.procs.Keys && s'.procs[pid].req == s.procs[pid].req
  {
    s.(procs := s.procs[pid := s.procs[pid].(next := next, sent := Some(s.redirectURI))])
  }

  /** An answer of GitHub. */
  function Hear(s: System, pid: nat, next: Next, user: Option<GitHubUser>, permissions: Option<Permissions>)
    : (s': System)
    requires pid in s.procs
    ensures s'.procs.Keys == s.procs.Keys && s'.procs[pid].req == s.procs[pid].req
  {
    s.(procs := s.procs[pid := s.procs[pid].(next := next, user := user, permissions := permissions)])
  }

  function SaveState(s: System, pid: nat, allowed: seq<string>, a: Answers): (s': System)
    requires pid in s.procs && s.procs[pid].req.Start?
    ensures s'.procs.Keys == s.procs.Keys && s'.procs[pid].req == s.procs[pid].req
  {
    var req := s.procs[pid].req;
    match CheckStart(allowed, req.repository, req.redirectURI)
    case Err(e) => Goto(s, pid, Done(Failed(e)))
    case Ok(repository) =>
      if a.uuid in s.issued then s
      else
        var cache := WriteCache(s.cache, OIDCStateKey(a.uuid),
                                StateV(StateRecord(repository, req.redirectURI, req.shell)), a.fault);
        Goto(s.(cache := cache, issued := s.issued + {a.uuid}, started := s.started[a.uuid := pid]), pid,
             if a.fault == Fine then PointStart(a.uuid) else Done(Failed(StateSaveFailed)))
  }

  function ConsumeState(s: System, pid: nat, a: Answers): (s': System)
    requires pid in s.procs && s.procs[pid].req.Callback?
    ensures s'.procs.Keys == s.procs.Keys && s'.procs[pid].req == s.procs[pid].req
  {
    var req := s.procs[pid].req;
    if req.code == "" then Goto(s, pid, Done(Failed(InvalidCode)))
    else if req.state == "" then Goto(s, pid, Done(Failed(InvalidState)))
    else
      var (cache, found) := TakeState(s.cache, req.state, a.fault);
      match found
      case Err(e) => Goto(s.(cache := cache), pid, Done(Failed(e)))
      case Ok(dto) =>
        var s1 := s.(cache := cache, taken := s.taken[req.state := pid]);
        match NewRepositoryIdentifier(dto.repository)
        case Err(e) => Goto(s1, pid, Done(Failed(e)))
        case Ok(repository) => Goto(s1, pid, PointCallback(repository, dto.redirectURI, StoredShell(dto)))
  }

  function CreateSession(s: System, pid: nat, login: User, shell: ShellType, a: Answers): (s': System)
    requires pid in s.procs
    ensures s'.procs.Keys == s.procs.Keys && s'.procs[pid].req == s.procs[pid].req
  {
    if a.uuid in s.issued then s
    else
      var p := s.procs[pid];
      var s1 := s.(cache := WriteCache(s.cache, SessionKey(a.uuid), SessionV(Stored(login)), a.fault),
                   issued := s.issued + {a.uuid});
      if a.fault == Lost then Goto(s1, pid, Done(Failed(SessionFailed)))
      else
        s1.(sessions := s.sessions[a.uuid := SessionRecord(pid, Stored(login))],
            procs := s.procs[pid := p.(created := Some(a.uuid),
                                       next := Done(if a.fault == Fine then LoggedIn(a.uuid, shell)
                                                    else Failed(SessionFailed)))])
  }

  /** One step of a request. */
  function Advance(s: System, pid: nat, allowed: seq<string>, a: Answers): (s': System)
    requires pid in s.procs
    ensures s'.procs.Keys == s.procs.Keys && s'.procs[pid].req == s.procs[pid].req
  {
    var p := s.procs[pid];
    match p.next
    case Begin => if p.req.Start? then SaveState(s, pid, allowed, a) else ConsumeState(s, pid, a)
    case PointStart(state) =>
      if p.req.Start? then Goto(s.(redirectURI := TrimSpace(p.req.redirectURI)), pid, BuildURL(state)) else s
    case BuildURL(state) => Send(s, pid, Done(Started(state, s.redirectURI)))
    case PointCallback(repository, uri, shell) =>
      Goto(s.(redirectURI := TrimSpace(uri)), pid, Exchange(repository, shell))
    case Exchange(repository, shell) =>
      Send(s, pid, if a.tokenGranted then Identify(repository, shell) else Done(Failed(CodeExchangeFailed)))
    case Identify(repository, shell) =>
      Hear(s, pid, if a.user.Some? then Inspect(repository, shell, a.user.value) else Done(Failed(UserInfoFailed)),
           a.user, None)
    case Inspect(repository, shell, user) =>
      (match NewLogin(repository, user, a.permissions)
       case Err(e) => Hear(s, pid, Done(Failed(e)), p.user, a.permissions)
       case Ok(login) => Hear(s, pid, OpenSession(login, shell), p.user, a.permissions))
    case OpenSession(login, shell) => CreateSession(s, pid, login, shell, a)
    case Done(_) => s
  }

  function Exec(s: System, e: Event, allowed: seq<string>): System {
    match e
    case Arrive(pid, req) => if pid in s.procs then s else s.(procs := s.procs[pid := Process(req, Begin, None, None)])
    case Step(pid, a) => if pid in s.procs then Advance(s, pid, allowed, a) else s
    case Vanish(key) => s.(cache := s.cache - {key})
    case Foreign(family, name, v) =>
      if family.State? || family.Session? then s else s.(cache := s.cache[Key(family, name) := v])
  }

  function Run(s: System, events: seq<Event>, allowed: seq<string>): System
    decreases |events|
  {
    if events == [] then s else Run(Exec(s, events[0], allowed), events[1..], allowed)
  }

  function Initial(redirectURI: string): System {
    System(map[], redirectURI, {}, map[], map[], map[], map[])
  }

  lemma RunNext(s: System, e: Event, rest: seq<Event>, allowed: seq<string>)
    ensures Run(s, [e] + rest, allowed) == Run(Exec(s, e, allowed), rest, allowed)
  {
    assert ([e] + rest)[1..] == rest;
  }
}

module OAuthInvariants {
  import opened Prelude
  import opened Domain
  import opened CacheKeys
  import opened RedisValues
  import opened Stores
  import opened Shells
  import opened Sessions
  import opened OAuth

  /** The start a state id was saved for. */
  ghost predicate StartOk(s: System, state: string, allowed: seq<string>) {
    state in s.started && s.started[state] in s.procs &&
    var req := s.procs[s.started[state]].req;
    req.Start? && CheckStart(allowed, req.repository, req.redirectURI).Ok?
  }

  function StartOf(s: System, state: string): Request
    requires state in s.started && s.started[state] in s.procs
  {
    s.procs[s.started[state]].req
  }

  /** A Redis entry under a state key is the record of its start, not taken yet. */
  ghost predicate StateEntryOk(s: System, state: string, allowed: seq<string>) {
    OIDCStateKey(state) in s.cache ==>
      StartOk(s, state, allowed) && state !in s.taken &&
      var req := StartOf(s, state);
      s.cache[OIDCStateKey(state)] == StateV(StateRecord(req.repository.value, req.redirectURI, req.shell))
  }

  ghost predicate SessionEntryOk(s: System, id: string) {
    SessionKey(id) in s.cache ==> id in s.sessions && s.cache[SessionKey(id)] == SessionV(s.sessions[id].stored)
  }

  /** The process is the callback that took its state. */
  ghost predicate Took(s: System, pid: nat, allowed: seq<string>) {
    pid in s.procs && s.procs[pid].req.Callback? &&
    var state := s.procs[pid].req.state;
    state in s.taken && s.taken[state] == pid && StartOk(s, state, allowed)
  }

  /** What a callback holds is what its start was given. */
  ghost predicate Holds(s: System, pid: nat, allowed: seq<string>, repository: Repo, shell: ShellType) {
    Took(s, pid, allowed) && s.procs[pid].created.None? &&
    var req := StartOf(s, s.procs[pid].req.state);
    req.repository == Some(repository) && req.shell == shell
  }

  /** The login is that of the user GitHub named, for the repository, with the permissions GitHub
      answered, and these let the user read. */
  ghost predicate LoginOk(login: User, repository: Repo, user: Option<GitHubUser>, permissions: Option<Permissions>) {
    user.Some? && permissions.Some? &&
    login == User(FormatInt(user.value.id), "", user.value.name, "github", Some(repository), "", permissions) &&
    var p := permissions.value; p.pull || p.push || p.admin || p.maintain || p.triage
  }

  ghost predicate ProcessOk(s: System, pid: nat, allowed: seq<string>)
    requires pid in s.procs
  {
    var p := s.procs[pid];
    match p.next
    case Begin => p.created.None?
    case PointStart(state) => p.req.Start? && StartOk(s, state, allowed) && s.started[state] == pid
    case BuildURL(state) => p.req.Start? && StartOk(s, state, allowed) && s.started[state] == pid
    case PointCallback(repository, uri, shell) =>
      Holds(s, pid, allowed, repository, shell) && uri == StartOf(s, p.req.state).redirectURI
    case Exchange(repository, shell) => Holds(s, pid, allowed, repository, shell)
    case Identify(repository, shell) => Holds(s, pid, allowed, repository, shell)
    case Inspect(repository, shell, user) => Holds(s, pid, allowed, repository, shell) && p.user == Some(user)
    case OpenSession(login, shell) =>
      login.repository.Some? && Holds(s, pid, allowed, login.repository.value, shell) &&
      LoginOk(login, login.repository.value, p.user, p.permissions)
    case Done(Started(state, _)) => p.req.Start? && StartOk(s, state, allowed) && s.started[state] == pid
    case Done(LoggedIn(session, shell)) =>
      Took(s, pid, allowed) && p.created == Some(session) && session in s.sessions && s.sessions[session].pid == pid &&
      shell == StartOf(s, p.req.state).shell
    case Done(Failed(_)) => true
  }

  /** A session was written by the one callback that took its state, for the repository of the start. */
  ghost predicate SessionOk(s: System, id: string, allowed: seq<string>)
    requires id in s.sessions
  {
    var pid := s.sessions[id].pid;
    Took(s, pid, allowed) && s.procs[pid].next.Done? && s.procs[pid].created == Some(id) &&
    var r := Restored(s.sessions[id].stored);
    r.Ok? && LoginOk(r.value, StartOf(s, s.procs[pid].req.state).repository.value, s.procs[pid].user,
                     s.procs[pid].permissions)
  }

  ghost predicate EntriesOk(s: System, allowed: seq<string>) {
    (forall state :: StateEntryOk(s, state, allowed)) && (forall id :: SessionEntryOk(s, id))
  }

  ghost predicate HistoryOk(s: System, allowed: seq<string>) {
    && (forall state :: state in s.started ==> state in s.issued && StartOk(s, state, allowed))
    && (forall state :: state in s.taken ==> state in s.started && s.taken[state] in s.procs)
    && (forall id :: id in s.sessions ==> id in s.issued && SessionOk(s, id, allowed))
    && (forall pid :: pid in s.procs ==> ProcessOk(s, pid, allowed))
  }

  ghost predicate Inv(s: System, allowed: seq<string>) {
    EntriesOk(s, allowed) && HistoryOk(s, allowed)
  }

  /** Requests stay what they are, and what has happened stays so; processes other than `pid` do
      not move. */
  ghost predicate Extends(s: System, s': System, pid: nat) {
    && s.procs.Keys <= s'.procs.Keys
    && (forall q :: q in s.procs ==> s'.procs[q].req == s.procs[q].req && (q != pid ==> s'.procs[q] == s.procs[q]))
    && (forall x :: x in s.started ==> x in s'.started && s'.started[x] == s.started[x])
    && (forall x :: x in s.taken ==> x in s'.taken && s'.taken[x] == s.taken[x])
    && (forall x :: x in s.sessions ==> x in s'.sessions && s'.sessions[x] == s.sessions[x])
  }

  lemma StartsStay(s: System, s': System, pid: nat, state: string, allowed: seq<string>)
    requires Extends(s, s', pid) && StartOk(s, state, allowed)
    ensures StartOk(s', state, allowed) && StartOf(s', state) == StartOf(s, state)
  {
  }

  lemma ProcessesStay(s: System, s': System, pid: nat, q: nat, allowed: seq<string>)
    requires Extends(s, s', pid) && q in s.procs && q != pid && ProcessOk(s, q, allowed)
    ensures ProcessOk(s', q, allowed)
  {
    hide CheckStart, LoginOk;
    forall state | StartOk(s, state, allowed)
      ensures StartOk(s', state, allowed) && StartOf(s', state) == StartOf(s, state)
    {
      StartsStay(s, s', pid, state, allowed);
    }
  }

  lemma SessionsStay(s: System, s': System, pid: nat, id: string, allowed: seq<string>)
    requires Extends(s, s', pid) && id in s.sessions && s.sessions[id].pid != pid && SessionOk(s, id, allowed)
    ensures SessionOk(s', id, allowed)
  {
    hide CheckStart, LoginOk, StartOk, Restored;
    StartsStay(s, s', pid, s.procs[s.sessions[id].pid].req.state, allowed);
  }

  /** What a step must show; the rest of the invariant follows. */
  lemma StepIsLocal(s: System, s': System, pid: nat, allowed: seq<string>)
    requires Inv(s, allowed) && Extends(s, s', pid)
    requires forall state :: StateEntryOk(s', state, allowed)
    requires forall id :: SessionEntryOk(s', id)
    requires forall state :: state in s'.started ==>
               state in s'.issued && (state in s.started || StartOk(s', state, allowed))
    requires forall state :: state in s'.taken ==> state in s'.started && s'.taken[state] in s'.procs
    requires forall id :: id in s'.sessions ==>
               id in s'.issued && ((id in s.sessions && s.sessions[id].pid != pid) || SessionOk(s', id, allowed))
    requires forall q :: q in s'.procs ==> q in s.procs || q == pid
    requires pid in s'.procs ==> ProcessOk(s', pid, allowed)
    ensures Inv(s', allowed)
  {
    hide StateEntryOk, SessionEntryOk, StartOk, ProcessOk, SessionOk;
    forall q | q in s'.procs ensures ProcessOk(s', q, allowed) {
      if q != pid {
        ProcessesStay(s, s', pid, q, allowed);
      }
    }
    forall id | id in s'.sessions ensures SessionOk(s', id, allowed) {
      if id in s.sessions && s.sessions[id].pid != pid {
        SessionsStay(s, s', pid, id, allowed);
      }
    }
    forall state | state in s'.started ensures StartOk(s', state, allowed) {
      if state in s.started {
        StartsStay(s, s', pid, state, allowed);
      }
    }
  }

  /** Steps that touch no store: only the process moves, and perhaps the shared redirect URI. */
  predicate TouchesNoStore(s: System, s': System, pid: nat)
    requires pid in s.procs
  {
    pid in s'.procs && s'.procs[pid].req == s.procs[pid].req &&
    s' == s.(redirectURI := s'.redirectURI, procs := s.procs[pid := s'.procs[pid]])
  }

  /** ... and no session is recorded. */
  predicate OnlyMoves(s: System, s': System, pid: nat)
    requires pid in s.procs
  {
    TouchesNoStore(s, s', pid) && s'.procs[pid].created == s.procs[pid].created
  }

  lemma EntriesStay(s: System, s': System, pid: nat, allowed: seq<string>)
    requires Inv(s, allowed) && Extends(s, s', pid) && s'.cache == s.cache && s'.taken == s.taken
    ensures forall state :: StateEntryOk(s', state, allowed)
    ensures forall id :: SessionEntryOk(s', id)
  {
    hide StartOk, ProcessOk, SessionOk, OIDCStateKey, SessionKey;
    forall state ensures StateEntryOk(s', state, allowed) {
      assert StateEntryOk(s, state, allowed);
      if OIDCStateKey(state) in s.cache {
        StartsStay(s, s', pid, state, allowed);
      }
    }
    forall id ensures SessionEntryOk(s', id) {
      assert SessionEntryOk(s, id);
    }
  }

  lemma MoveKeepsInvariant(s: System, s': System, pid: nat, allowed: seq<string>)
    requires Inv(s, allowed) && pid in s.procs && OnlyMoves(s, s', pid) && ProcessOk(s', pid, allowed)
    requires s.procs[pid].next.Done? ==> s'.procs[pid].next.Done? && s'.procs[pid].user == s.procs[pid].user &&
                                         s'.procs[pid].permissions == s.procs[pid].permissions
    ensures Inv(s', allowed)
  {
    hide StateEntryOk, SessionEntryOk, StartOk, ProcessOk, Restored, LoginOk;
    EntriesStay(s, s', pid, allowed);
    forall id | id in s.sessions && s.sessions[id].pid == pid ensures SessionOk(s', id, allowed) {
      assert SessionOk(s, id, allowed);
      StartsStay(s, s', pid, s.procs[pid].req.state, allowed);
    }
    StepIsLocal(s, s', pid, allowed);
  }

  /** Keys of the two families never meet. */
  lemma KeysApart()
    ensures forall x, y :: OIDCStateKey(x) == OIDCStateKey(y) ==> x == y
    ensures forall x, y :: SessionKey(x) == SessionKey(y) ==> x == y
    ensures forall x, y :: OIDCStateKey(x) != SessionKey(y)
  {
    forall x: string, y: string
      ensures OIDCStateKey(x) == OIDCStateKey(y) ==> x == y
      ensures SessionKey(x) == SessionKey(y) ==> x == y
      ensures OIDCStateKey(x) != SessionKey(y)
    {
      KeysInjective(State, x, State, y);
      KeysInjective(Family.Session, x, Family.Session, y);
      KeysInjective(State, x, Family.Session, y);
    }
  }

  /** The stored state gives back the repository and the shell it was made of. */
  lemma StateRoundTrip(repository: Repo, uri: string, shell: ShellType)
    ensures var dto := StateRecord(repository, uri, shell);
      NewRepositoryIdentifier(dto.repository) == Ok(repository) && dto.redirectURI == uri && StoredShell(dto) == shell
  {
    RepositoryRoundTrip(repository.FullName(), repository);
  }

  /** What the invariant says of one process and of one unused UUID. */
  lemma FromInvariant(s: System, pid: nat, uuid: string, allowed: seq<string>)
    requires Inv(s, allowed) && pid in s.procs
    ensures ProcessOk(s, pid, allowed)
    ensures uuid !in s.issued ==> uuid !in s.started && uuid !in s.taken && uuid !in s.sessions
    ensures !s.procs[pid].next.Done? ==> forall id :: id in s.sessions ==> s.sessions[id].pid != pid
  {
    hide ProcessOk, StateEntryOk, SessionEntryOk, Took;
    assert forall id :: id in s.sessions ==> SessionOk(s, id, allowed);
  }

  lemma StateWritten(s: System, s': System, pid: nat, id: string, allowed: seq<string>)
    requires Inv(s, allowed) && Extends(s, s', pid) && s'.taken == s.taken && id !in s.taken && StartOk(s', id, allowed)
    requires var req := StartOf(s', id);
      s'.cache == s.cache ||
      s'.cache == s.cache[OIDCStateKey(id) := StateV(StateRecord(req.repository.value, req.redirectURI, req.shell))]
    ensures forall state :: StateEntryOk(s', state, allowed)
    ensures forall k :: SessionEntryOk(s', k)
  {
    hide OIDCStateKey, SessionKey, StartOk, ProcessOk, SessionOk;
    KeysApart();
    forall state ensures StateEntryOk(s', state, allowed) {
      assert StateEntryOk(s, state, allowed);
      if OIDCStateKey(state) in s.cache {
        StartsStay(s, s', pid, state, allowed);
      }
    }
    forall k ensures SessionEntryOk(s', k) {
      assert SessionEntryOk(s, k);
    }
  }

  lemma StateTaken(s: System, s': System, pid: nat, id: string, allowed: seq<string>)
    requires Inv(s, allowed) && Extends(s, s', pid)
    requires (s'.cache == s.cache && s'.taken == s.taken) ||
             (s'.cache == s.cache - {OIDCStateKey(id)} && (s'.taken == s.taken || s'.taken == s.taken[id := pid]))
    ensures forall state :: StateEntryOk(s', state, allowed)
    ensures forall k :: SessionEntryOk(s', k)
  {
    hide OIDCStateKey, SessionKey, StartOk, ProcessOk, SessionOk;
    KeysApart();
    forall state ensures StateEntryOk(s', state, allowed) {
      assert StateEntryOk(s, state, allowed);
      if OIDCStateKey(state) in s.cache {
        StartsStay(s, s', pid, state, allowed);
      }
    }
    forall k ensures SessionEntryOk(s', k) {
      assert SessionEntryOk(s, k);
    }
  }

  lemma SessionWritten(s: System, s': System, pid: nat, id: string, allowed: seq<string>)
    requires Inv(s, allowed) && Extends(s, s', pid) && s'.taken == s.taken
    requires s'.cache == s.cache ||
             (id in s'.sessions && s'.cache == s.cache[SessionKey(id) := SessionV(s'.sessions[id].stored)])
    ensures forall state :: StateEntryOk(s', state, allowed)
    ensures forall k :: SessionEntryOk(s', k)
  {
    hide OIDCStateKey, SessionKey, StartOk, ProcessOk, SessionOk;
    KeysApart();
    forall state ensures StateEntryOk(s', state, allowed) {
      assert StateEntryOk(s, state, allowed);
      if OIDCStateKey(state) in s.cache {
        StartsStay(s, s', pid, state, allowed);
      }
    }
    forall k ensures SessionEntryOk(s', k) {
      assert SessionEntryOk(s, k);
    }
  }

  lemma IdsAreKnown(s: System, allowed: seq<string>)
    requires Inv(s, allowed)
    ensures forall state :: state in s.started ==> state in s.issued
    ensures forall state :: state in s.taken ==> state in s.started && s.taken[state] in s.procs
    ensures forall id :: id in s.sessions ==> id in s.issued
  {
  }

  lemma TakenStateIsTheStarts(s: System, state: string, f: Fault, allowed: seq<string>)
    requires Inv(s, allowed)
    ensures var found := TakeState(s.cache, state, f).1;
      found.Ok? ==>
        && StartOk(s, state, allowed) && state !in s.taken
        && NewRepositoryIdentifier(found.value.repository).Ok?
        && StartOf(s, state).repository == Some(NewRepositoryIdentifier(found.value.repository).value)
        && StartOf(s, state).redirectURI == found.value.redirectURI
        && StartOf(s, state).shell == StoredShell(found.value)
  {
    hide OIDCStateKey, HistoryOk, NewRepositoryIdentifier, StoredShell, StateRecord;
    assert StateEntryOk(s, state, allowed);
    if TakeState(s.cache, state, f).1.Ok? {
      var start := StartOf(s, state);
      StateRoundTrip(start.repository.value, start.redirectURI, start.shell);
    }
  }

  lemma SaveStateExtends(s: System, pid: nat, allowed: seq<string>, a: Answers)
    requires pid in s.procs && s.procs[pid].req.Start? && s.procs[pid].created.None?
    requires CheckStart(allowed, s.procs[pid].req.repository, s.procs[pid].req.redirectURI).Ok?
    requires a.uuid !in s.issued && a.uuid !in s.started && a.uuid !in s.taken
    ensures var s' := SaveState(s, pid, allowed, a);
      Extends(s, s', pid) && StartOk(s', a.uuid, allowed) && ProcessOk(s', pid, allowed)
  {
    hide OIDCStateKey, CheckStart, StateRecord;
  }

  lemma SaveStateKeepsInvariant(s: System, pid: nat, allowed: seq<string>, a: Answers)
    requires Inv(s, allowed) && pid in s.procs && s.procs[pid].req.Start? && s.procs[pid].next.Begin?
    ensures Inv(SaveState(s, pid, allowed, a), allowed)
  {
    hide Inv, OIDCStateKey, SessionOk, StateEntryOk, SessionEntryOk, Extends, ProcessOk;
    var req := s.procs[pid].req;
    var s' := SaveState(s, pid, allowed, a);
    FromInvariant(s, pid, a.uuid, allowed);
    BeginsClean(s, pid, allowed);
    IdsAreKnown(s, allowed);
    if CheckStart(allowed, req.repository, req.redirectURI).Err? {
      FailureIsOk(s, pid, allowed);
    } else if a.uuid !in s.issued {
      SaveStateExtends(s, pid, allowed, a);
      StateWritten(s, s', pid, a.uuid, allowed);
      StepIsLocal(s, s', pid, allowed);
    }
  }

  lemma BeginsClean(s: System, pid: nat, allowed: seq<string>)
    requires pid in s.procs && ProcessOk(s, pid, allowed) && s.procs[pid].next.Begin?
    ensures s.procs[pid].created.None?
  {
  }

  /** A request may fail at any point. */
  lemma FailureIsOk(s: System, pid: nat, allowed: seq<string>)
    requires Inv(s, allowed) && pid in s.procs
    ensures forall e :: Inv(Goto(s, pid, Done(Failed(e))), allowed)
  {
    hide Inv;
    forall e ensures Inv(Goto(s, pid, Done(Failed(e))), allowed) {
      MoveKeepsInvariant(s, Goto(s, pid, Done(Failed(e))), pid, allowed);
    }
  }

  lemma ConsumeStateExtends(s: System, pid: nat, allowed: seq<string>, a: Answers)
    requires Inv(s, allowed) && pid in s.procs && s.procs[pid].req.Callback? && s.procs[pid].created.None?
    ensures var s' := ConsumeState(s, pid, a);
      Extends(s, s', pid) && ProcessOk(s', pid, allowed)
  {
    hide Inv, CheckStart, NewRepositoryIdentifier, StoredShell, TakeState, ProcessOk, Extends;
    var req := s.procs[pid].req;
    var (cache, found) := TakeState(s.cache, req.state, a.fault);
    TakenStateIsTheStarts(s, req.state, a.fault, allowed);
    if req.code == "" || req.state == "" {
      FailedProcess(s, s, pid, if req.code == "" then InvalidCode else InvalidState, allowed);
    } else if found.Err? {
      FailedProcess(s, s.(cache := cache), pid, found.error, allowed);
    } else {
      var next := PointCallback(NewRepositoryIdentifier(found.value.repository).value, found.value.redirectURI,
                                StoredShell(found.value));
      TakingExtends(s, cache, pid, next, allowed);
    }
  }

  lemma FailedProcess(s: System, s1: System, pid: nat, e: Error, allowed: seq<string>)
    requires pid in s.procs && s1 == s.(cache := s1.cache)
    ensures var s' := Goto(s1, pid, Done(Failed(e))); Extends(s, s', pid) && ProcessOk(s', pid, allowed)
  {
  }

  lemma TakingExtends(s: System, cache: Cache, pid: nat, next: Next, allowed: seq<string>)
    requires pid in s.procs && s.procs[pid].req.Callback? && s.procs[pid].created.None?
    requires var state := s.procs[pid].req.state;
      && StartOk(s, state, allowed) && state !in s.taken && next.PointCallback?
      && StartOf(s, state).repository == Some(next.repository) && StartOf(s, state).redirectURI == next.uri
      && StartOf(s, state).shell == next.shell
    ensures var s' := Goto(s.(cache := cache, taken := s.taken[s.procs[pid].req.state := pid]), pid, next);
      Extends(s, s', pid) && ProcessOk(s', pid, allowed)
  {
    hide CheckStart;
  }

  lemma ConsumeStateKeepsInvariant(s: System, pid: nat, allowed: seq<string>, a: Answers)
    requires Inv(s, allowed) && pid in s.procs && s.procs[pid].req.Callback? && s.procs[pid].next.Begin?
    ensures Inv(ConsumeState(s, pid, a), allowed)
  {
    hide Inv, OIDCStateKey, SessionOk, StateEntryOk, SessionEntryOk, CheckStart, NewRepositoryIdentifier, StoredShell,
      Extends, ProcessOk;
    var req := s.procs[pid].req;
    var s' := ConsumeState(s, pid, a);
    FromInvariant(s, pid, "", allowed);
    BeginsClean(s, pid, allowed);
    IdsAreKnown(s, allowed);
    if req.code == "" || req.state == "" {
      FailureIsOk(s, pid, allowed);
    } else {
      TakenStateIsTheStarts(s, req.state, a.fault, allowed);
      ConsumeStateExtends(s, pid, allowed, a);
      StateTaken(s, s', pid, req.state, allowed);
      StepIsLocal(s, s', pid, allowed);
    }
  }

  /** What recording a session changes. */
  lemma SessionRecorded(s: System, pid: nat, login: User, shell: ShellType, a: Answers)
    requires pid in s.procs && a.uuid !in s.issued && a.uuid !in s.sessions
    ensures var p, s' := s.procs[pid], CreateSession(s, pid, login, shell, a); var p' := s'.procs[pid];
      && Extends(s, s', pid) && s'.taken == s.taken && s'.started == s.started && p'.next.Done?
      && p'.user == p.user && p'.permissions == p.permissions && p'.req == p.req
      && (a.fault == Lost ==> a.uuid !in s'.sessions && p'.next == Done(Failed(SessionFailed)))
      && (a.fault != Lost ==>
          && s'.sessions == s.sessions[a.uuid := SessionRecord(pid, Stored(login))] && p'.created == Some(a.uuid)
          && p'.next == Done(if a.fault == Fine then LoggedIn(a.uuid, shell) else Failed(SessionFailed)))
  {
    hide SessionKey, Stored;
  }

  lemma CreateSessionExtends(s: System, pid: nat, allowed: seq<string>, login: User, shell: ShellType, a: Answers)
    requires pid in s.procs && s.procs[pid].next == OpenSession(login, shell) && ProcessOk(s, pid, allowed)
    requires a.uuid !in s.issued && a.uuid !in s.sessions
    ensures var s' := CreateSession(s, pid, login, shell, a);
      && Extends(s, s', pid) && ProcessOk(s', pid, allowed)
      && (a.uuid in s'.sessions ==> SessionOk(s', a.uuid, allowed))
  {
    hide SessionKey, CheckStart, Restored, Stored, FormatInt, CreateSession, Extends;
    SessionRecorded(s, pid, login, shell, a);
    StartsStay(s, CreateSession(s, pid, login, shell, a), pid, s.procs[pid].req.state, allowed);
    SessionRoundTrip(login);
  }

  lemma CreateSessionKeepsInvariant(s: System, pid: nat, allowed: seq<string>, login: User, shell: ShellType,
                                    a: Answers)
    requires Inv(s, allowed) && pid in s.procs && s.procs[pid].next == OpenSession(login, shell)
    ensures Inv(CreateSession(s, pid, login, shell, a), allowed)
  {
    hide Inv, SessionKey, Stored, StateEntryOk, SessionEntryOk, Extends, ProcessOk, SessionOk;
    var s' := CreateSession(s, pid, login, shell, a);
    if a.uuid !in s.issued {
      FromInvariant(s, pid, a.uuid, allowed);
      IdsAreKnown(s, allowed);
      CreateSessionExtends(s, pid, allowed, login, shell, a);
      SessionWritten(s, s', pid, a.uuid, allowed);
      StepIsLocal(s, s', pid, allowed);
    }
  }

  /** The steps that set or use the shared URI. */
  lemma StartMovesKeepInvariant(s: System, pid: nat, allowed: seq<string>, a: Answers)
    requires Inv(s, allowed) && pid in s.procs && (s.procs[pid].next.PointStart? || s.procs[pid].next.BuildURL?)
    ensures Inv(Advance(s, pid, allowed, a), allowed)
  {
    hide Inv, SaveState, ConsumeState, CreateSession, CheckStart, NewLogin, TrimSpace, StartOf;
    FromInvariant(s, pid, "", allowed);
    MoveKeepsInvariant(s, Advance(s, pid, allowed, a), pid, allowed);
  }

  lemma CallbackMovesKeepInvariant(s: System, pid: nat, allowed: seq<string>, a: Answers)
    requires Inv(s, allowed) && pid in s.procs && (s.procs[pid].next.PointCallback? || s.procs[pid].next.Exchange?)
    ensures Inv(Advance(s, pid, allowed, a), allowed)
  {
    hide Inv, SaveState, ConsumeState, CreateSession, CheckStart, NewLogin, TrimSpace;
    FromInvariant(s, pid, "", allowed);
    MoveKeepsInvariant(s, Advance(s, pid, allowed, a), pid, allowed);
  }

  /** The steps that only ask GitHub. */
  lemma QueriesKeepInvariant(s: System, pid: nat, allowed: seq<string>, a: Answers)
    requires Inv(s, allowed) && pid in s.procs && (s.procs[pid].next.Identify? || s.procs[pid].next.Inspect?)
    ensures Inv(Advance(s, pid, allowed, a), allowed)
  {
    hide Inv, SaveState, ConsumeState, CreateSession, CheckStart, NewLogin, TrimSpace, LoginOk;
    FromInvariant(s, pid, "", allowed);
    if s.procs[pid].next.Inspect? {
      LoginsAreOk(s.procs[pid].next.repository, s.procs[pid].next.user, a.permissions);
      assert s.procs[pid].user == Some(s.procs[pid].next.user);
    }
    MoveKeepsInvariant(s, Advance(s, pid, allowed, a), pid, allowed);
  }

  lemma LoginsAreOk(repository: Repo, user: GitHubUser, permissions: Option<Permissions>)
    ensures var login := NewLogin(repository, user, permissions);
      login.Ok? ==> login.value.repository == Some(repository) &&
                    LoginOk(login.value, repository, Some(user), permissions)
  {
    hide FormatInt;
  }

  lemma AdvanceKeepsInvariant(s: System, pid: nat, allowed: seq<string>, a: Answers)
    requires Inv(s, allowed) && pid in s.procs
    ensures Inv(Advance(s, pid, allowed, a), allowed)
  {
    hide Inv, SaveState, ConsumeState, CreateSession, CheckStart, NewLogin, TrimSpace;
    var p := s.procs[pid];
    if p.next.Begin? {
      if p.req.Start? { SaveStateKeepsInvariant(s, pid, allowed, a); }
      else { ConsumeStateKeepsInvariant(s, pid, allowed, a); }
    } else if p.next.OpenSession? {
      CreateSessionKeepsInvariant(s, pid, allowed, p.next.login, p.next.shell, a);
    } else if p.next.PointStart? || p.next.BuildURL? {
      StartMovesKeepInvariant(s, pid, allowed, a);
    } else if p.next.PointCallback? || p.next.Exchange? {
      CallbackMovesKeepInvariant(s, pid, allowed, a);
    } else if !p.next.Done? {
      QueriesKeepInvariant(s, pid, allowed, a);
    }
  }

  lemma ExecKeepsInvariant(s: System, e: Event, allowed: seq<string>)
    requires Inv(s, allowed)
    ensures Inv(Exec(s, e, allowed), allowed)
  {
    hide Advance, OIDCStateKey, SessionKey, EntriesOk, HistoryOk;
    var s' := Exec(s, e, allowed);
    if e.Step? && e.pid in s.procs {
      AdvanceKeepsInvariant(s, e.pid, allowed, e.answers);
    } else if e.Arrive? && e.pid !in s.procs {
      ArriveKeepsInvariant(s, e.pid, e.req, allowed);
    } else if e.Vanish? || e.Foreign? {
      OtherEntries(s, s', e, allowed);
      HistoryIgnoresCache(s, s'.cache, allowed);
    }
  }

  lemma ArriveKeepsInvariant(s: System, pid: nat, req: Request, allowed: seq<string>)
    requires Inv(s, allowed) && pid !in s.procs
    ensures Inv(s.(procs := s.procs[pid := Process(req, Begin, None, None)]), allowed)
  {
    hide OIDCStateKey, SessionKey, StateEntryOk, SessionEntryOk;
    var s' := s.(procs := s.procs[pid := Process(req, Begin, None, None)]);
    EntriesStay(s, s', pid, allowed);
    assert forall id :: id in s.sessions ==> SessionOk(s, id, allowed);
    StepIsLocal(s, s', pid, allowed);
  }

  lemma HistoryIgnoresCache(s: System, cache: Cache, allowed: seq<string>)
    requires HistoryOk(s, allowed)
    ensures HistoryOk(s.(cache := cache), allowed)
  {
    hide CheckStart, LoginOk, Restored;
    var s' := s.(cache := cache);
    assert forall state :: StartOk(s, state, allowed) ==>
        StartOk(s', state, allowed) && StartOf(s', state) == StartOf(s, state);
    assert forall pid :: Took(s, pid, allowed) ==> Took(s', pid, allowed);
    forall pid | pid in s.procs ensures ProcessOk(s', pid, allowed) {
      assert ProcessOk(s, pid, allowed);
    }
    forall id | id in s.sessions ensures SessionOk(s', id, allowed) {
      assert SessionOk(s, id, allowed);
    }
  }

  /** Entries that disappear, and writes of other families. */
  lemma OtherEntries(s: System, s': System, e: Event, allowed: seq<string>)
    requires EntriesOk(s, allowed) && (e.Vanish? || e.Foreign?) && s' == Exec(s, e, allowed)
    ensures EntriesOk(s', allowed)
  {
    hide OIDCStateKey, SessionKey, CheckStart, Prefix;
    forall state ensures StateEntryOk(s', state, allowed) {
      assert StateEntryOk(s, state, allowed);
      if e.Foreign? { KeysInjective(State, state, e.family, e.name); }
    }
    forall id ensures SessionEntryOk(s', id) {
      assert SessionEntryOk(s, id);
      if e.Foreign? { KeysInjective(Family.Session, id, e.family, e.name); }
    }
  }

  lemma {:induction false} RunsKeepInvariant(s: System, events: seq<Event>, allowed: seq<string>)
    requires Inv(s, allowed)
    ensures Inv(Run(s, events, allowed), allowed)
    decreases |events|
  {
    hide Inv, Exec;
    if events != [] {
      ExecKeepsInvariant(s, events[0], allowed);
      RunsKeepInvariant(Exec(s, events[0], allowed), events[1..], allowed);
    }
  }

  lemma ReachableInvariant(redirectURI: string, events: seq<Event>, allowed: seq<string>)
    ensures Inv(Run(Initial(redirectURI), events, allowed), allowed)
  {
    RunsKeepInvariant(Initial(redirectURI), events, allowed);
  }
}
