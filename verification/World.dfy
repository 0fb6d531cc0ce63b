// The four stores as values, and what one call to each of them does.

module RedisValues {
  import opened Domain

  datatype OAuthStateDTO = OAuthStateDTO(repository: string, redirectURI: string, shell: string)

  datatype UserInfoDTO = UserInfoDTO(
    sub: string, email: string, name: string, provider: string, repository: string, ref: string,
    permAdmin: bool, permPush: bool, permPull: bool, permMaintain: bool, permTriage: bool)

  datatype JWK = JWK(kid: string, kty: string, use: string, n: string, e: string)

  datatype JWKSet = JWKSet(keys: seq<JWK>)

  /** What a Redis key can hold, one constructor per struct the code marshals there. */
  datatype Value =
    | MetaV(meta: Meta)
    | TextV(text: string)
    | StateV(state: OAuthStateDTO)
    | SessionV(session: UserInfoDTO)
    | JwksV(jwks: JWKSet)
}

module Stores {
  import opened Prelude
  import opened Domain
  import opened CacheKeys
  import opened RedisValues

  /** How a store call goes: well; it fails and has no effect; or it reports a failure although its
      effect took place (a lost acknowledgement). For a read the last two are the same. */
  datatype Fault = Fine | Lost | Unacked

  type Rows = map<string, Meta>
  type Policies = map<string, string>
  type Cache = map<string, Value>
  type Blobs = map<string, seq<bv8>>

  /** `lfs_objects` by oid, `lfs_object_access_policies` by oid (the repository column), the
      unexpired part of the flat Redis key space, and the bucket. */
  datatype World = World(rows: Rows, policies: Policies, cache: Cache, blobs: Blobs)

  // ---------- lfs_objects ----------

  function FindRow(rows: Rows, oid: string, f: Fault): Result<Meta, Error> {
    if f != Fine then Err(StoreFailure)
    else if oid !in rows then Err(NotFound)
    else Reconstruct(rows[oid])
  }

  /** INSERT: the primary key rejects an oid that is already there. */
  function InsertRow(rows: Rows, m: Meta, f: Fault): (Rows, Result<(), Error>) {
    if f == Lost || m.oid in rows then (rows, Err(StoreFailure))
    else (rows[m.oid := m], if f == Fine then Ok(()) else Err(StoreFailure))
  }

  /** UPDATE ... WHERE oid: overwrites every other column; no row affected means not found. */
  function UpdateRow(rows: Rows, m: Meta, f: Fault): (Rows, Result<(), Error>) {
    if f == Lost then (rows, Err(StoreFailure))
    else if m.oid !in rows then (rows, Err(if f == Fine then NotFound else StoreFailure))
    else (rows[m.oid := m], if f == Fine then Ok(()) else Err(StoreFailure))
  }

  function RowExists(rows: Rows, oid: string, f: Fault): Result<bool, Error> {
    if f != Fine then Err(StoreFailure) else Ok(oid in rows)
  }

  // ---------- lfs_object_access_policies ----------

  function FindPolicy(policies: Policies, oid: string, f: Fault): Result<Repo, Error> {
    if f != Fine then Err(StoreFailure)
    else if oid !in policies then Err(PolicyNotFound)
    else if NewOID(oid).Err? then Err(InvalidOID)
    else NewRepositoryIdentifier(policies[oid])
  }

  /** The width of the repository columns, VARCHAR(255). */
  const REPOSITORY_WIDTH := 255

  /** The text a repository column stores, if any. PostgreSQL has no NUL character, refuses a text
      that is too long, and cuts it off instead if all that is too much is spaces. */
  function Column(text: string): (stored: Option<string>)
    ensures stored.Some? ==> stored.value <= text && |stored.value| <= REPOSITORY_WIDTH && '\0' !in stored.value
  {
    if '\0' in text then None
    else if |text| <= REPOSITORY_WIDTH then Some(text)
    else if forall i :: REPOSITORY_WIDTH <= i < |text| ==> text[i] == ' ' then Some(text[..REPOSITORY_WIDTH])
    else None
  }

  /** The name is stored as it is. */
  predicate FitsColumn(repo: Repo) {
    Column(repo.FullName()) == Some(repo.FullName())
  }

  /** The name is stored, but not as it is. */
  predicate CutOff(name: string) {
    Column(name).Some? && Column(name).value != name
  }

  lemma StoredTextFits(name: string)
    ensures Column(name).Some? ==> Column(Column(name).value) == Column(name)
  {
  }

  lemma ColumnCases(name: string)
    ensures Column(name) == Some(name) <==> '\0' !in name && |name| <= REPOSITORY_WIDTH
    ensures CutOff(name) <==>
            '\0' !in name && |name| > REPOSITORY_WIDTH && forall i :: REPOSITORY_WIDTH <= i < |name| ==> name[i] == ' '
  {
    if '\0' !in name && |name| > REPOSITORY_WIDTH {
      assert |name[..REPOSITORY_WIDTH]| != |name|;
    }
  }

  /** INSERT ... ON CONFLICT DO UPDATE: one row per oid; the foreign key wants the object's row and
      the column has to take the name. */
  function UpsertPolicy(w: World, oid: string, repo: Repo, f: Fault): (World, Result<(), Error>) {
    var text := Column(repo.FullName());
    if f == Lost || oid !in w.rows || text.None? then (w, Err(StoreFailure))
    else (w.(policies := w.policies[oid := text.value]), if f == Fine then Ok(()) else Err(StoreFailure))
  }

  /** What a write to a table promises: an insert is acknowledged exactly for a new key, an update exactly
      for one that is there, a policy exactly for an object with a row and a name the column takes; and
      none of them touches another key, adds one by update, or overwrites one by insert. */
  lemma TableWrites(w: World, m: Meta, oid: string, repo: Repo, f: Fault)
    ensures var (rows, r) := InsertRow(w.rows, m, f);
      && (r.Ok? <==> f == Fine && m.oid !in w.rows) && (r.Ok? ==> rows == w.rows[m.oid := m])
      && (m.oid in w.rows ==> rows == w.rows)
    ensures var (rows, r) := UpdateRow(w.rows, m, f);
      && (r.Ok? <==> f == Fine && m.oid in w.rows) && (r.Ok? ==> rows == w.rows[m.oid := m])
      && (r == Err(NotFound) <==> f == Fine && m.oid !in w.rows) && rows.Keys == w.rows.Keys
    ensures var (w', r) := UpsertPolicy(w, oid, repo, f); var text := Column(repo.FullName());
      && (r.Ok? <==> f == Fine && oid in w.rows && text.Some?)
      && (r.Ok? ==> w' == w.(policies := w.policies[oid := text.value]))
      && (oid !in w.rows || text.None? ==> w' == w)
  {
    assert m.oid in w.rows ==> w.rows[m.oid := m].Keys == w.rows.Keys;
  }

  // ---------- Redis ----------

  /** GetJSON into cachedMetadata followed by validation. A value of another struct decodes to an
      error or to a record without a valid oid, so it counts as a miss. */
  function ReadCache(cache: Cache, oid: string, f: Fault): Option<Meta> {
    var key := MetadataKey(oid);
    if f == Fine && key in cache && cache[key].MetaV? then
      match Reconstruct(cache[key].meta)
      case Ok(m) => Some(m)
      case Err(_) => None
    else None
  }

  function WriteCache(cache: Cache, key: string, v: Value, f: Fault): Cache {
    if f == Lost then cache else cache[key := v]
  }

  function DeleteKey(cache: Cache, key: string, f: Fault): Cache {
    if f == Lost then cache else cache - {key}
  }

  // ---------- the bucket ----------

  /** A put stores exactly the declared number of bytes. A shorter body is refused; of a longer one
      the rest is not sent, and the fault says whether that is reported. */
  function PutBlob(blobs: Blobs, key: string, body: seq<bv8>, length: int, f: Fault): (Blobs, Result<(), Error>) {
    if f == Lost || length < 0 || |body| < length then (blobs, Err(StoreFailure))
    else (blobs[key := body[..length]], if f == Fine then Ok(()) else Err(StoreFailure))
  }

  function GetBlob(blobs: Blobs, key: string, f: Fault): Result<seq<bv8>, Error> {
    if f != Fine || key !in blobs then Err(StoreFailure) else Ok(blobs[key])
  }
}

module BatchApi {
  import opened Prelude
  import opened Domain

  datatype RequestObject = RequestObject(oid: string, size: int)

  datatype BatchRequest = BatchRequest(
    operation: Operation, objects: seq<RequestObject>, hashAlgo: string, repository: Option<Repo>)

  function FirstBadObject(objects: seq<RequestObject>): Option<Error> {
    if objects == [] then None
    else if NewOID(objects[0].oid).Err? then Some(InvalidOID)
    else if NewSize(objects[0].size).Err? then Some(InvalidSize)
    else FirstBadObject(objects[1..])
  }

  function Validate(req: BatchRequest): Result<(), Error> {
    if req.operation != UPLOAD && req.operation != DOWNLOAD then Err(InvalidOperation)
    else if |req.objects| == 0 then Err(NoObjects)
    else if FirstBadObject(req.objects).Some? then Err(FirstBadObject(req.objects).value)
    else if NewHashAlgorithm(req.hashAlgo).Err? then Err(InvalidHashAlgorithm)
    else Ok(())
  }

  function EffectiveHashAlgo(req: BatchRequest): string {
    if req.hashAlgo == "" then DEFAULT_HASH_ALGORITHM else req.hashAlgo
  }

  datatype Action = Action(href: string, header: map<string, string>, expiresIn: nat)

  datatype Actions = Actions(upload: Option<Action>, download: Option<Action>)

  datatype ObjectError = ObjectError(code: nat)

  datatype ResponseObject = ResponseObject(
    oid: string, size: int, authenticated: bool, actions: Option<Actions>, error: Option<ObjectError>)

  datatype BatchResponse = BatchResponse(transfer: string, objects: seq<ResponseObject>, hashAlgo: string)

  /** Where a batch came in: what the action URLs and headers are made of. */
  datatype CallContext = CallContext(baseURL: string, owner: string, repo: string, authHeader: string)

  const BAD_REQUEST: nat := 400
  const MISSING: nat := 404
  const CONFLICT: nat := 409
  const INTERNAL_ERROR: nat := 500

  const DEFAULT_TRANSFER_TYPE := "basic"
  const ACTION_LIFETIME_SECONDS: nat := 900

  function ActionURL(c: CallContext, oid: string): string {
    var base := if c.baseURL != "" && c.baseURL[|c.baseURL| - 1] == '/' then c.baseURL[..|c.baseURL| - 1]
      else c.baseURL;
    base + "/" + c.owner + "/" + c.repo + "/info/lfs/objects/" + oid
  }

  function NewAction(c: CallContext, oid: string): Action {
    Action(ActionURL(c, oid), if c.authHeader != "" then map["Authorization" := c.authHeader] else map[],
           ACTION_LIFETIME_SECONDS)
  }

  function Failure(oid: string, size: int, code: nat): ResponseObject {
    ResponseObject(oid, size, false, None, Some(ObjectError(code)))
  }

  function UploadResponse(c: CallContext, oid: string, size: int): ResponseObject {
    ResponseObject(oid, size, true, Some(Actions(Some(NewAction(c, oid)), None)), None)
  }

  function AlreadyThere(oid: string, size: int): ResponseObject {
    ResponseObject(oid, size, true, None, None)
  }

  function DownloadResponse(c: CallContext, oid: string, size: int): ResponseObject {
    ResponseObject(oid, size, true, Some(Actions(None, Some(NewAction(c, oid)))), None)
  }

  predicate OffersDownload(r: ResponseObject) {
    r.actions.Some? && r.actions.value.download.Some?
  }
}
