// Sessions: the stored form of a user, and the permission check made from it.

module Sessions {
  import opened Prelude
  import opened Domain
  import opened CacheKeys
  import opened RedisValues
  import opened Stores
  import opened Redis

  const GITHUB := "github"

  /** The fields of a UserInfo. */
  datatype User = User(
    sub: string, email: string, name: string, provider: string, repository: Option<Repo>, ref: string,
    permissions: Option<Permissions>)

  /** The entity; SetPermissions is its only mutation. */
  class UserInfo {
    const sub: string
    const email: string
    const name: string
    const provider: string
    const repository: Option<Repo>
    const ref: string
    var permissions: Option<Permissions>

    function Record(): User
      reads this
    {
      User(sub, email, name, provider, repository, ref, permissions)
    }

    constructor (sub: string, email: string, name: string, provider: string, repository: Option<Repo>, ref: string)
      ensures Record() == User(sub, email, name, provider, repository, ref, None)
    {
      this.sub, this.email, this.name, this.provider, this.repository, this.ref := sub, email, name, provider,
        repository, ref;
      this.permissions := None;
    }

    method SetPermissions(permissions: Option<Permissions>)
      modifies this
      ensures Record() == old(Record()).(permissions := permissions)
    {
      this.permissions := permissions;
    }
  }

  function NewUser(sub: string, email: string, name: string, provider: string, repository: Option<Repo>,
                   ref: string): Result<User, Error>
  {
    if sub == "" then Err(EmptySub) else Ok(User(sub, email, name, provider, repository, ref, None))
  }

  /** A user has a subject, and no permissions until they are set. */
  lemma UsersHaveSubjects(sub: string, email: string, name: string, provider: string, repository: Option<Repo>,
                          ref: string)
    ensures var r := NewUser(sub, email, name, provider, repository, ref);
      if sub == "" then r == Err(EmptySub)
      else r.Ok? && r.value.sub == sub && r.value.permissions.None? && CheckPermissions(Some(r.value), "download").Err?
  {
  }

  // ---------- the stored form ----------

  const NO_PERMISSIONS := Permissions(false, false, false, false, false)

  /** What is written: a user without permissions and one with none granted look the same. */
  function Stored(u: User): UserInfoDTO {
    var p := if u.permissions.Some? then u.permissions.value else NO_PERMISSIONS;
    var repository := if u.repository.Some? then u.repository.value.FullName() else "";
    UserInfoDTO(u.sub, u.email, u.name, u.provider, repository, u.ref,
                p.admin, p.push, p.pull, p.maintain, p.triage)
  }

  function StoredPermissions(dto: UserInfoDTO): Permissions {
    Permissions(dto.permAdmin, dto.permPush, dto.permPull, dto.permMaintain, dto.permTriage)
  }

  /** What is read back. The provider is checked while the JSON is decoded. */
  function Restored(dto: UserInfoDTO): Result<User, Error> {
    var repository := if dto.repository == "" then Err(NotFound) else NewRepositoryIdentifier(dto.repository);
    if dto.provider != GITHUB then Err(InvalidProvider)
    else if dto.repository != "" && repository.Err? then Err(InvalidRepositoryFormat)
    else if dto.sub == "" then Err(EmptySub)
    else
      var p := StoredPermissions(dto);
      Ok(User(dto.sub, dto.email, dto.name, dto.provider,
              if repository.Ok? then Some(repository.value) else None, dto.ref,
              if p == NO_PERMISSIONS then None else Some(p)))
  }

  class UserInfoSerializer {
    constructor () {
    }

    method Serialize(userInfo: UserInfo) returns (dto: UserInfoDTO)
      ensures dto == Stored(userInfo.Record())
    {
      var repoStr := "";
      if userInfo.repository.Some? {
        repoStr := userInfo.repository.value.FullName();
      }
      dto := UserInfoDTO(userInfo.sub, userInfo.email, userInfo.name, userInfo.provider, repoStr, userInfo.ref,
        false, false, false, false, false);
      var perms := userInfo.permissions;
      if perms.Some? {
        dto := dto.(permAdmin := perms.value.admin);
        dto := dto.(permPush := perms.value.push);
        dto := dto.(permPull := perms.value.pull);
        dto := dto.(permMaintain := perms.value.maintain);
        dto := dto.(permTriage := perms.value.triage);
      }
    }

    method Deserialize(dto: UserInfoDTO) returns (r: Result<UserInfo, Error>)
      ensures r.Ok? ==> fresh(r.value) && Restored(dto) == Ok(r.value.Record())
      ensures r.Err? ==> Restored(dto) == Err(r.error)
    {
      if dto.provider != GITHUB {
        return Err(InvalidProvider);
      }
      var repo: Option<Repo> := None;
      if dto.repository != "" {
        var parsed := NewRepositoryIdentifier(dto.repository);
        if parsed.Err? {
          return Err(InvalidRepositoryFormat);
        }
        repo := Some(parsed.value);
      }
      if dto.sub == "" {
        return Err(EmptySub);
      }
      var userInfo := new UserInfo(dto.sub, dto.email, dto.name, dto.provider, repo, dto.ref);
      if dto.permAdmin || dto.permPush || dto.permPull || dto.permMaintain || dto.permTriage {
        userInfo.SetPermissions(Some(Permissions(dto.permAdmin, dto.permPush, dto.permPull, dto.permMaintain,
                                                 dto.permTriage)));
      }
      return Ok(userInfo);
    }
  }

  /** Reading back what was written gives the same user, except that permissions nobody granted are
      gone; it succeeds exactly for users with a subject and a known provider. */
  lemma SessionRoundTrip(u: User)
    ensures Restored(Stored(u)).Ok? <==> u.sub != "" && u.provider == GITHUB
    ensures Restored(Stored(u)).Ok? ==>
            Restored(Stored(u)).value ==
            u.(permissions := if u.permissions == Some(NO_PERMISSIONS) then None else u.permissions)
  {
    if u.repository.Some? {
      RepositoryRoundTrip(u.repository.value.FullName(), u.repository.value);
    }
  }

  /** And nothing stored is lost: a stored session that can be read is the stored form of what was
      read. */
  lemma StoredRoundTrip(dto: UserInfoDTO)
    ensures Restored(dto).Ok? ==> Stored(Restored(dto).value) == dto
  {
    if dto.repository != "" && NewRepositoryIdentifier(dto.repository).Ok? {
      RepositoryRoundTrip(dto.repository, NewRepositoryIdentifier(dto.repository).value);
    }
  }

  /** What cannot be read, and why: the provider first, then the repository, then the subject. */
  lemma RestoreFailures(dto: UserInfoDTO)
    ensures var named := dto.repository == "" || NewRepositoryIdentifier(dto.repository).Ok?;
      && (Restored(dto) == Err(InvalidProvider) <==> dto.provider != "github")
      && (Restored(dto) == Err(InvalidRepositoryFormat) <==> dto.provider == "github" && !named)
      && (Restored(dto) == Err(EmptySub) <==> dto.provider == "github" && named && dto.sub == "")
      && (Restored(dto).Ok? <==> dto.provider == "github" && named && dto.sub != "")
  {
    hide NewRepositoryIdentifier;
  }

  // ---------- the permission check ----------

  /** checkPermissions of the batch handler; anything but Ok is a 403. */
  function CheckPermissions(user: Option<User>, operation: string): Result<(), Error> {
    if user.None? then Err(AccessDenied)
    else if user.value.permissions.None? then Err(AccessDenied)
    else
      var permissions := user.value.permissions.value;
      if operation == "upload" then (if permissions.CanUpload() then Ok(()) else Err(AccessDenied))
      else if operation == "download" then (if permissions.CanDownload() then Ok(()) else Err(AccessDenied))
      else Ok(())
  }

  /** Who may do what, by the flags of the permissions record. Anything that is not one of the two
      operations is let through for everybody who has a record. */
  lemma PermissionDecision(user: Option<User>, operation: string)
    ensures CheckPermissions(user, "upload").Ok? <==>
            user.Some? && user.value.permissions.Some? &&
            var p := user.value.permissions.value; p.push || p.admin || p.maintain
    ensures CheckPermissions(user, "download").Ok? <==>
            user.Some? && user.value.permissions.Some? &&
            var p := user.value.permissions.value; p.pull || p.push || p.admin || p.maintain || p.triage
    ensures operation !in {"upload", "download"} ==>
              (CheckPermissions(user, operation).Ok? <==> user.Some? && user.value.permissions.Some?)
    ensures CheckPermissions(user, "upload").Ok? ==> CheckPermissions(user, operation).Ok?
    ensures CheckPermissions(user, operation).Err? ==> CheckPermissions(user, operation) == Err(AccessDenied)
  {
  }

  /** What a session that was read back lets its user do, by the flags that are stored: pull and triage
      alone are not enough to upload. */
  lemma StoredFlagsDecide(dto: UserInfoDTO)
    ensures Restored(dto).Ok? ==>
              var user := Some(Restored(dto).value);
              && (CheckPermissions(user, "upload").Ok? <==> dto.permPush || dto.permAdmin || dto.permMaintain)
              && (CheckPermissions(user, "download").Ok? <==>
                  dto.permPush || dto.permAdmin || dto.permMaintain || dto.permPull || dto.permTriage)
  {
    if Restored(dto).Ok? {
      PermissionDecision(Some(Restored(dto).value), "upload");
    }
  }

  ghost predicate SameDecision(u: User, operation: string) {
    Restored(Stored(u)).Ok? &&
    CheckPermissions(Some(Restored(Stored(u)).value), operation) == CheckPermissions(Some(u), operation)
  }

  /** A session keeps the permission decision for both operations of the protocol. For any other
      operation string the check lets through whoever has a permissions record, so there it is kept
      exactly when the record is not the all-false one. */
  lemma SessionKeepsDecisionExactlyWhen(u: User, operation: string)
    requires u.sub != "" && u.provider == GITHUB
    ensures SameDecision(u, operation) <==> ParseOperation(operation).Ok? || u.permissions != Some(NO_PERMISSIONS)
  {
    SessionRoundTrip(u);
  }

  // ---------- the session store ----------

  class SessionStore {
    const client: RedisClient
    const serializer: UserInfoSerializer

    constructor (client: RedisClient)
      ensures this.client == client
    {
      this.client := client;
      this.serializer := new UserInfoSerializer();
    }

    /** `sessionID` is the fresh UUID. */
    method CreateSession(sessionID: string, userInfo: UserInfo, ttl: int, f: Fault) returns (r: Result<string, Error>)
      modifies client`entries
      ensures client.entries ==
              SetEntry(old(client.entries), client.now, SessionKey(sessionID), SessionV(Stored(userInfo.Record())),
                       if ttl == 0 then 24 * 60 * 60 else ttl, f)
      ensures client.Contents() == WriteCache(old(client.Contents()), SessionKey(sessionID),
                                              SessionV(Stored(userInfo.Record())), f)
      ensures r == if f == Fine then Ok(sessionID) else Err(SessionFailed)
    {
      var lifetime := ttl;
      if lifetime == 0 {
        lifetime := SESSION_TTL;
      }
      var data := serializer.Serialize(userInfo);
      var ok := client.Set(SessionKey(sessionID), SessionV(data), lifetime, f);
      return if ok then Ok(sessionID) else Err(SessionFailed);
    }

    method GetSession(sessionID: string, f: Fault) returns (r: Result<UserInfo, Error>)
      ensures var key := SessionKey(sessionID);
        r.Ok? <==> f == Fine && key in client.Contents() && client.Contents()[key].SessionV? &&
                   Restored(client.Contents()[key].session).Ok?
      ensures r.Ok? ==>
                fresh(r.value) && Restored(client.Contents()[SessionKey(sessionID)].session) == Ok(r.value.Record())
      ensures var key := SessionKey(sessionID); var live := f == Fine && key in client.Contents();
        r.Err? ==> r.error == if live && client.Contents()[key].SessionV?
                              then Restored(client.Contents()[key].session).error else SessionFailed
    {
      var data := client.Get(SessionKey(sessionID), f);
      if data.Err? || !data.value.SessionV? {
        return Err(SessionFailed);
      }
      r := serializer.Deserialize(data.value.session);
    }
  }
}
