// What each operation of the service does when nothing runs beside it: the specifications of the
// repository and use-case methods.

module Authorization {
  import opened Prelude
  import opened Domain
  import opened Stores

  datatype AuthorizationResult = AuthorizationResult(allowed: bool, isNewObject: bool)

  function Authorize(policies: Policies, op: Operation, repo: Option<Repo>, oid: OID, f: Fault)
    : Result<AuthorizationResult, Error>
  {
    match repo
    case None => Err(NilRepository)
    case Some(r) =>
      match FindPolicy(policies, oid, f)
      case Err(PolicyNotFound) =>
        if op == UPLOAD then Ok(AuthorizationResult(true, true)) else Err(AuthorizationDenied)
      case Err(e) => Err(e)
      case Ok(owner) => if r != owner then Err(AuthorizationDenied) else Ok(AuthorizationResult(true, false))
  }

  function CheckAuthorization(policies: Policies, op: Operation, repo: Option<Repo>, oid: OID, f: Fault)
    : Result<AuthorizationResult, Error>
  {
    match Authorize(policies, op, repo, oid, f)
    case Ok(r) => Ok(r)
    case Err(e) =>
      if e == AuthorizationDenied || e == NilRepository then Err(AccessDenied) else Err(AuthorizationFailed)
  }

  function CanAccess(policies: Policies, repo: Option<Repo>, oid: OID, f: Fault): Result<bool, Error> {
    match repo
    case None => Err(NilRepository)
    case Some(r) =>
      match FindPolicy(policies, oid, f)
      case Err(e) => Err(e)
      case Ok(owner) => Ok(r == owner)
  }

  /** The ownership decision, both ways: a repository may touch an object that has a policy exactly
      when the policy names it, and an object without a policy exactly to upload it. */
  lemma AuthorizationDecision(policies: Policies, op: Operation, repo: Option<Repo>, oid: OID, f: Fault)
    ensures CheckAuthorization(policies, op, repo, oid, f) == Ok(AuthorizationResult(true, false)) <==>
            f == Fine && repo.Some? && oid in policies && policies[oid] == repo.value.FullName()
    ensures CheckAuthorization(policies, op, repo, oid, f) == Ok(AuthorizationResult(true, true)) <==>
            f == Fine && repo.Some? && oid !in policies && op == UPLOAD
    ensures CheckAuthorization(policies, op, repo, oid, f).Ok? ==>
            CheckAuthorization(policies, op, repo, oid, f).value.allowed
    ensures CanAccess(policies, repo, oid, f) == Ok(true) <==>
            CheckAuthorization(policies, op, repo, oid, f) == Ok(AuthorizationResult(true, false))
  {
    if repo.Some? && oid in policies {
      RepositoryRoundTrip(policies[oid], repo.value);
    }
  }
}

module Service {
  import opened Prelude
  import opened Domain
  import opened CacheKeys
  import opened StorageKeys
  import opened RedisValues
  import opened Stores
  import opened BatchApi
  import opened Authorization

  /** How each store call of one request goes, by call site. */
  datatype Faults = Faults(
    policyRead: Fault, cacheRead: Fault, rowRead: Fault, readFill: Fault,
    blob: Fault, write: Fault, writeFill: Fault, policyWrite: Fault, batchKey: Fault)

  const NO_FAULTS := Faults(Fine, Fine, Fine, Fine, Fine, Fine, Fine, Fine, Fine)

  // ---------- CachingLFSObjectRepository ----------

  function Find(w: World, oid: string, f: Faults): (World, Result<Meta, Error>) {
    match ReadCache(w.cache, oid, f.cacheRead)
    case Some(m) => (w, Ok(m))
    case None =>
      match FindRow(w.rows, oid, f.rowRead)
      case Err(e) => (w, Err(e))
      case Ok(m) => (w.(cache := WriteCache(w.cache, MetadataKey(oid), MetaV(m), f.readFill)), Ok(m))
  }

  function Save(w: World, m: Meta, f: Faults): (World, Result<(), Error>) {
    var (rows, r) := InsertRow(w.rows, m, f.write);
    var cache := if r.Ok? then WriteCache(w.cache, MetadataKey(m.oid), MetaV(m), f.writeFill) else w.cache;
    (w.(rows := rows, cache := cache), r)
  }

  function Update(w: World, m: Meta, f: Faults): (World, Result<(), Error>) {
    var (rows, r) := UpdateRow(w.rows, m, f.write);
    var cache := if r.Ok? then WriteCache(w.cache, MetadataKey(m.oid), MetaV(m), f.writeFill) else w.cache;
    (w.(rows := rows, cache := cache), r)
  }

  function Exists(w: World, oid: string, f: Faults): Result<bool, Error> {
    if f.cacheRead == Fine && MetadataKey(oid) in w.cache then Ok(true) else RowExists(w.rows, oid, f.rowRead)
  }

  // ---------- batch upload, one object ----------

  /** What HandleUploadObject decides once the lookup is back: answer, or insert a row and then answer. */
  datatype UploadPlan = Respond(resp: ResponseObject) | Register(row: Meta, resp: ResponseObject)

  function PlanUpload(c: CallContext, oid: OID, size: nat, hashAlgo: string, found: Result<Meta, Error>): UploadPlan {
    match found
    case Err(NotFound) =>
      (match GenerateStorageKey(oid, hashAlgo)
       case Err(_) => Respond(Failure(oid, size, BAD_REQUEST))
       case Ok(key) =>
         match NewHashAlgorithm(hashAlgo)
         case Err(_) => Respond(Failure(oid, size, BAD_REQUEST))
         case Ok(h) =>
           if key == "" then Respond(Failure(oid, size, INTERNAL_ERROR))
           else Register(Meta(oid, size, h, key, false), UploadResponse(c, oid, size)))
    case Err(_) => Respond(Failure(oid, size, INTERNAL_ERROR))
    case Ok(m) =>
      if m.uploaded then
        if m.size != size then Respond(Failure(oid, size, CONFLICT)) else Respond(AlreadyThere(oid, size))
      else Respond(UploadResponse(c, oid, size))
  }

  function UploadObject(w: World, c: CallContext, oid: OID, size: nat, hashAlgo: string, f: Faults)
    : (World, ResponseObject)
  {
    var (w1, found) := Find(w, oid, f);
    match PlanUpload(c, oid, size, hashAlgo, found)
    case Respond(resp) => (w1, resp)
    case Register(row, resp) =>
      var (w2, saved) := Save(w1, row, f);
      (w2, if saved.Ok? then resp else Failure(oid, size, INTERNAL_ERROR))
  }

  /** One turn of the batch-upload loop. */
  function RegisterObject(w: World, c: CallContext, repo: Option<Repo>, oid: OID, size: nat, hashAlgo: string,
                          f: Faults)
    : (World, Result<ResponseObject, Error>)
  {
    match CheckAuthorization(w.policies, UPLOAD, repo, oid, f.policyRead)
    case Err(e) => (w, Err(e))
    case Ok(auth) =>
      var (w1, resp) := UploadObject(w, c, oid, size, hashAlgo, f);
      if auth.isNewObject && resp.error.None? then
        var (w2, saved) := UpsertPolicy(w1, oid, repo.value, f.policyWrite);
        (w2, if saved.Ok? then Ok(resp) else Err(PolicySaveFailed))
      else (w1, Ok(resp))
  }

  // ---------- proxy upload, verify, download ----------

  function ProxyUpload(w: World, owner: string, name: string, oid: OID, body: seq<bv8>, f: Faults)
    : (World, Result<(), Error>)
  {
    match NewRepositoryIdentifier(owner + "/" + name)
    case Err(_) => (w, Err(AccessDenied))
    case Ok(repo) =>
      match CheckAuthorization(w.policies, UPLOAD, Some(repo), oid, f.policyRead)
      case Err(e) => (w, Err(e))
      case Ok(_) =>
        var (w1, found) := Find(w, oid, f);
        match found
        case Err(e) => (w1, Err(if e == NotFound then ObjectNotFound else e))
        case Ok(m) =>
          var (blobs, stored) := PutBlob(w1.blobs, m.storageKey, body, m.size, f.blob);
          var w2 := w1.(blobs := blobs);
          if stored.Err? then (w2, stored) else Update(w2, MarkedUploaded(m), f)
  }

  function VerifyUpload(w: World, rawOid: string, rawSize: int, f: Faults): (World, Result<(), Error>) {
    if NewOID(rawOid).Err? then (w, Err(InvalidOID))
    else if NewSize(rawSize).Err? then (w, Err(InvalidSize))
    else
      var (w1, found) := Find(w, rawOid, f);
      match found
      case Err(e) => (w1, Err(if e == NotFound then ObjectNotFound else FindFailed))
      case Ok(m) =>
        if m.size != rawSize then (w1, Err(SizeMismatch))
        else
          var (w2, updated) := Update(w1, MarkedUploaded(m), f);
          if updated.Err? then (w2, Err(UpdateFailed))
          else (w2.(cache := DeleteKey(w2.cache, BatchUploadKey(rawOid), f.batchKey)), Ok(()))
  }

  function AnswerDownload(c: CallContext, oid: OID, size: nat, found: Result<Meta, Error>): ResponseObject {
    match found
    case Err(NotFound) => Failure(oid, size, MISSING)
    case Err(_) => Failure(oid, size, INTERNAL_ERROR)
    case Ok(m) => if !m.uploaded then Failure(oid, size, MISSING) else DownloadResponse(c, oid, size)
  }

  /** One turn of the batch-download loop. */
  function AdvertiseObject(w: World, c: CallContext, repo: Option<Repo>, oid: OID, size: nat, f: Faults)
    : (World, Result<ResponseObject, Error>)
  {
    match CheckAuthorization(w.policies, DOWNLOAD, repo, oid, f.policyRead)
    case Err(e) => (w, Err(e))
    case Ok(_) =>
      var (w1, found) := Find(w, oid, f);
      (w1, Ok(AnswerDownload(c, oid, size, found)))
  }

  datatype Download = Download(content: seq<bv8>, size: int)

  function ProxyDownload(w: World, owner: string, name: string, oid: OID, f: Faults): (World, Result<Download, Error>) {
    match NewRepositoryIdentifier(owner + "/" + name)
    case Err(_) => (w, Err(AccessDenied))
    case Ok(repo) =>
      match CheckAuthorization(w.policies, DOWNLOAD, Some(repo), oid, f.policyRead)
      case Err(e) => (w, Err(e))
      case Ok(_) =>
        var (w1, found) := Find(w, oid, f);
        match found
        case Err(e) => (w1, Err(if e == NotFound then ObjectNotFound else e))
        case Ok(m) =>
          if !m.uploaded then (w1, Err(NotUploaded))
          else
            match GetBlob(w1.blobs, m.storageKey, f.blob)
            case Err(e) => (w1, Err(e))
            case Ok(content) => (w1, Ok(Download(content, m.size)))
  }
}
