// Requests interleaved at every store call. A process is one request (for a batch: one of its
// objects; that a whole batch is a run of this machine is proved in module Sequences).

module Lifecycle {
  import opened Prelude
  import opened Domain
  import opened CacheKeys
  import opened RedisValues
  import opened Stores
  import opened BatchApi
  import opened Authorization
  import Service

  datatype Request =
    | Register(context: CallContext, repository: Option<Repo>, oid: OID, size: nat, hashAlgo: string)
    | Put(owner: string, name: string, oid: OID, body: seq<bv8>)
    | Verify(rawOid: string, rawSize: int)
    | Advertise(context: CallContext, repository: Option<Repo>, oid: OID, size: nat)
    | Fetch(owner: string, name: string, oid: OID)

  datatype Outcome =
    | Answered(resp: ResponseObject)
    | Stored
    | Verified
    | Streamed(content: seq<bv8>, length: int)
    | Failed(error: Error)

  /** The store call a process makes next, with the local variables it still needs. */
  datatype Next =
    | ReadPolicy
    | ReadCached(isNew: bool)
    | ReadRow(isNew: bool)
    | FillAfterRead(isNew: bool, copy: Meta)
    | Insert(isNew: bool, row: Meta, resp: ResponseObject)
    | FillAfterInsert(isNew: bool, copy: Meta, resp: ResponseObject)
    | SavePolicy(resp: ResponseObject)
    | StoreBlob(copy: Meta)
    | WriteRow(copy: Meta)
    | FillAfterWrite(copy: Meta)
    | DropBatchKey
    | LoadBlob(copy: Meta)
    | Done(outcome: Outcome)

  datatype Process = Process(req: Request, next: Next)

  function OidOf(req: Request): string {
    if req.Verify? then req.rawOid else req.oid
  }

  function RepositoryOf(req: Request): Option<Repo> {
    match req
    case Register(_, r, _, _, _) => r
    case Advertise(_, r, _, _) => r
    case Put(owner, name, _, _) =>
      var r := NewRepositoryIdentifier(owner + "/" + name); if r.Ok? then Some(r.value) else None
    case Fetch(owner, name, _) =>
      var r := NewRepositoryIdentifier(owner + "/" + name); if r.Ok? then Some(r.value) else None
    case Verify(_, _) => None
  }

  function Start(req: Request): Next {
    if !req.Verify? then ReadPolicy
    else if NewOID(req.rawOid).Err? then Done(Failed(InvalidOID))
    else if NewSize(req.rawSize).Err? then Done(Failed(InvalidSize))
    else ReadCached(false)
  }

  /** Where the object's answer is ready: a new object still needs its policy. */
  function AfterAnswer(isNew: bool, resp: ResponseObject): Next {
    if isNew && resp.error.None? then SavePolicy(resp) else Done(Answered(resp))
  }

  /** The local decision after a lookup. */
  function AfterFind(req: Request, isNew: bool, found: Result<Meta, Error>): Next {
    match req
    case Register(c, _, oid, size, hashAlgo) =>
      (match Service.PlanUpload(c, oid, size, hashAlgo, found)
       case Respond(resp) => AfterAnswer(isNew, resp)
       case Register(row, resp) => Insert(isNew, row, resp))
    case Put(_, _, _, _) =>
      (match found
       case Err(e) => Done(Failed(if e == NotFound then ObjectNotFound else e))
       case Ok(m) => StoreBlob(m))
    case Verify(_, size) =>
      (match found
       case Err(e) => Done(Failed(if e == NotFound then ObjectNotFound else FindFailed))
       case Ok(m) => if m.size != size then Done(Failed(SizeMismatch)) else WriteRow(MarkedUploaded(m)))
    case Advertise(c, _, oid, size) => Done(Answered(Service.AnswerDownload(c, oid, size, found)))
    case Fetch(_, _, _) =>
      match found
      case Err(e) => Done(Failed(if e == NotFound then ObjectNotFound else e))
      case Ok(m) => if !m.uploaded then Done(Failed(NotUploaded)) else LoadBlob(m)
  }

  /** One store call of one process. */
  function Advance(w: World, p: Process, f: Fault): (World, Process) {
    var req := p.req;
    match p.next
    case ReadPolicy =>
      if req.Verify? then (w, p.(next := Done(Failed(AccessDenied)))) else
      var op := if req.Register? || req.Put? then UPLOAD else DOWNLOAD;
      (match CheckAuthorization(w.policies, op, RepositoryOf(req), req.oid, f)
       case Err(e) => (w, p.(next := Done(Failed(e))))
       case Ok(auth) => (w, p.(next := ReadCached(auth.isNewObject))))
    case ReadCached(isNew) =>
      (match ReadCache(w.cache, OidOf(req), f)
       case Some(m) => (w, p.(next := AfterFind(req, isNew, Ok(m))))
       case None => (w, p.(next := ReadRow(isNew))))
    case ReadRow(isNew) =>
      (match FindRow(w.rows, OidOf(req), f)
       case Err(e) => (w, p.(next := AfterFind(req, isNew, Err(e))))
       case Ok(m) => (w, p.(next := FillAfterRead(isNew, m))))
    case FillAfterRead(isNew, m) =>
      (w.(cache := WriteCache(w.cache, MetadataKey(OidOf(req)), MetaV(m), f)), p.(next := AfterFind(req, isNew, Ok(m))))
    case Insert(isNew, row, resp) =>
      var (rows, r) := InsertRow(w.rows, row, f);
      (w.(rows := rows), p.(next := if r.Ok? then FillAfterInsert(isNew, row, resp)
                                    else AfterAnswer(isNew, Failure(resp.oid, resp.size, INTERNAL_ERROR))))
    case FillAfterInsert(isNew, m, resp) =>
      (w.(cache := WriteCache(w.cache, MetadataKey(m.oid), MetaV(m), f)), p.(next := AfterAnswer(isNew, resp)))
    case SavePolicy(resp) =>
      if RepositoryOf(req).None? then (w, p.(next := Done(Failed(AccessDenied)))) else
      var (w', r) := UpsertPolicy(w, OidOf(req), RepositoryOf(req).value, f);
      (w', p.(next := if r.Ok? then Done(Answered(resp)) else Done(Failed(PolicySaveFailed))))
    case StoreBlob(m) =>
      if !req.Put? then (w, p.(next := Done(Failed(AccessDenied)))) else
      var (blobs, r) := PutBlob(w.blobs, m.storageKey, req.body, m.size, f);
      (w.(blobs := blobs), p.(next := if r.Ok? then WriteRow(MarkedUploaded(m)) else Done(Failed(r.error))))
    case WriteRow(m) =>
      var (rows, r) := UpdateRow(w.rows, m, f);
      (w.(rows := rows), p.(next := if r.Ok? then FillAfterWrite(m)
                                    else Done(Failed(if req.Verify? then UpdateFailed else r.error))))
    case FillAfterWrite(m) =>
      (w.(cache := WriteCache(w.cache, MetadataKey(m.oid), MetaV(m), f)),
       p.(next := if req.Verify? then DropBatchKey else Done(Stored)))
    case DropBatchKey =>
      (w.(cache := DeleteKey(w.cache, BatchUploadKey(OidOf(req)), f)), p.(next := Done(Verified)))
    case LoadBlob(m) =>
      (match GetBlob(w.blobs, m.storageKey, f)
       case Err(e) => (w, p.(next := Done(Failed(e))))
       case Ok(content) => (w, p.(next := Done(Streamed(content, m.size)))))
    case Done(_) => (w, p)
  }

  /** Which store a call can change. */
  lemma Footprint(w: World, p: Process, f: Fault)
    ensures var w' := Advance(w, p, f).0;
      && (!p.next.StoreBlob? ==> w'.blobs == w.blobs)
      && (!p.next.Insert? && !p.next.WriteRow? ==> w'.rows == w.rows)
      && (!p.next.SavePolicy? ==> w'.policies == w.policies)
      && (p.next.Insert? || p.next.WriteRow? ==>
          var m := if p.next.Insert? then p.next.row else p.next.copy;
          w'.rows == w.rows || w'.rows == w.rows[m.oid := m])
    ensures Advance(w, p, f).1.req == p.req
  {
    hide AfterFind, AfterAnswer, CheckAuthorization, ReadCache, FindRow, GetBlob, Column, MetadataKey,
         RepositoryOf, OidOf;
  }

  // ---------- the system ----------

  datatype System = System(world: World, procs: map<nat, Process>)

  /** A request arrives; a process makes its next store call; a Redis entry expires or is evicted;
      another component writes a key of a family of its own. */
  datatype Event =
    | Arrive(pid: nat, req: Request)
    | Step(pid: nat, fault: Fault)
    | Vanish(key: string)
    | Foreign(family: Family, name: string, value: Value)

  function Exec(s: System, e: Event): System {
    match e
    case Arrive(pid, req) => if pid in s.procs then s else s.(procs := s.procs[pid := Process(req, Start(req))])
    case Step(pid, f) =>
      if pid !in s.procs then s
      else
        var (w, p) := Advance(s.world, s.procs[pid], f);
        System(w, s.procs[pid := p])
    case Vanish(key) => s.(world := s.world.(cache := s.world.cache - {key}))
    case Foreign(family, name, v) =>
      if family == Metadata then s
      else s.(world := s.world.(cache := s.world.cache[Key(family, name) := v]))
  }

  function Run(s: System, events: seq<Event>): System
    decreases |events|
  {
    if events == [] then s else Run(Exec(s, events[0]), events[1..])
  }

  const INITIAL := System(World(map[], map[], map[], map[]), map[])

  lemma {:induction false} RunAppend(s: System, xs: seq<Event>, ys: seq<Event>)
    ensures Run(s, xs + ys) == Run(Run(s, xs), ys)
    decreases |xs|
  {
    if xs == [] {
      assert xs + ys == ys;
    } else {
      assert (xs + ys)[1..] == xs[1..] + ys;
      RunAppend(Exec(s, xs[0]), xs[1..], ys);
    }
  }

  lemma RunNext(s: System, e: Event, rest: seq<Event>)
    ensures Run(s, [e] + rest) == Run(Exec(s, e), rest)
  {
    assert ([e] + rest)[1..] == rest;
  }
}

module LifecycleInvariants {
  import opened Prelude
  import opened Domain
  import opened CacheKeys
  import opened StorageKeys
  import opened RedisValues
  import opened Stores
  import opened BatchApi
  import opened Lifecycle

  // ---------- what holds in every reachable state ----------

  /** Two records agree on everything that is fixed when an object is registered. */
  predicate SameIdentity(m: Meta, n: Meta) {
    m.oid == n.oid && m.size == n.size && m.hashAlgo == n.hashAlgo && m.storageKey == n.storageKey
  }

  predicate RowOk(oid: string, m: Meta) {
    ValidOID(oid) && m.oid == oid && m.size >= 0 && m.hashAlgo == DEFAULT_HASH_ALGORITHM &&
    m.storageKey == ObjectKey(oid)
  }

  /** A copy of the row of `oid` that may be out of date but never ahead. */
  predicate NotAhead(rows: Rows, oid: string, m: Meta) {
    oid in rows && SameIdentity(m, rows[oid]) && (m.uploaded ==> rows[oid].uploaded)
  }

  ghost predicate RowsOk(rows: Rows) {
    forall o :: o in rows ==> RowOk(o, rows[o])
  }

  ghost predicate CacheNotAhead(rows: Rows, cache: Cache) {
    forall o :: MetadataKey(o) in cache ==>
      cache[MetadataKey(o)].MetaV? && NotAhead(rows, o, cache[MetadataKey(o)].meta)
  }

  ghost predicate PoliciesOk(rows: Rows, policies: Policies) {
    forall o :: o in policies ==> o in rows && Column(policies[o]) == Some(policies[o])
  }

  /** A blob under an object's key belongs to a registered object and has the registered size. */
  ghost predicate BlobsOk(rows: Rows, blobs: Blobs) {
    forall o: OID :: ObjectKey(o) in blobs ==> o in rows && |blobs[ObjectKey(o)]| == rows[o].size
  }

  ghost predicate WorldInv(w: World) {
    RowsOk(w.rows) && CacheNotAhead(w.rows, w.cache) && PoliciesOk(w.rows, w.policies) && BlobsOk(w.rows, w.blobs)
  }

  /** The object is marked uploaded. */
  predicate Uploaded(w: World, oid: string) {
    oid in w.rows && w.rows[oid].uploaded
  }

  /** The object's content is in the bucket. */
  predicate HasContent(w: World, oid: string) {
    ValidOID(oid) && ObjectKey(oid) in w.blobs
  }

  /** An answer to a registration: whoever is told to go ahead has a row, with no action if it is marked
      and of that size; whoever is told of a conflict has asked for another size than the marked row's. */
  predicate RegistrationOk(w: World, oid: string, size: int, resp: ResponseObject) {
    && !OffersDownload(resp)
    && (resp.error.None? ==>
        oid in w.rows && (resp.actions.None? ==> w.rows[oid].uploaded && w.rows[oid].size == size))
    && (resp.error.Some? && resp.error.value.code == 409 ==> Uploaded(w, oid) && w.rows[oid].size != size)
  }

  /** An answer to a download: an offer exactly when there is no error, and only of a marked object. */
  predicate OfferOk(w: World, oid: string, resp: ResponseObject) {
    (resp.error.None? <==> OffersDownload(resp)) && (OffersDownload(resp) ==> Uploaded(w, oid))
  }

  predicate OutcomeOk(w: World, req: Request, out: Outcome) {
    match out
    case Answered(resp) =>
      (req.Register? || req.Advertise?) && resp.oid == req.oid && resp.size == req.size &&
      (if req.Register? then RegistrationOk(w, req.oid, req.size, resp) else OfferOk(w, req.oid, resp))
    case Streamed(content, length) =>
      req.Fetch? && Uploaded(w, req.oid) && length == w.rows[req.oid].size == |content|
    case Stored => req.Put? && Uploaded(w, req.oid) && HasContent(w, req.oid)
    case Verified => req.Verify? && Uploaded(w, req.rawOid) && w.rows[req.rawOid].size == req.rawSize
    case Failed(e) =>
      e == SizeMismatch ==> req.Verify? && req.rawOid in w.rows && w.rows[req.rawOid].size != req.rawSize
  }

  /** What a process knows about the stores, whatever the others do. */
  predicate ProcessInv(w: World, p: Process) {
    var req, o := p.req, OidOf(p.req);
    match p.next
    case ReadPolicy => !req.Verify?
    case ReadCached(_) => ValidOID(o)
    case ReadRow(_) => ValidOID(o)
    case FillAfterRead(_, m) => ValidOID(o) && NotAhead(w.rows, o, m)
    case Insert(_, row, resp) =>
      req.Register? && RowOk(o, row) && row.size == req.size && !row.uploaded &&
      resp == UploadResponse(req.context, o, req.size)
    case FillAfterInsert(_, m, resp) =>
      req.Register? && NotAhead(w.rows, o, m) && resp == UploadResponse(req.context, o, req.size)
    case SavePolicy(resp) =>
      req.Register? && o in w.rows && resp.error.None? && OutcomeOk(w, req, Answered(resp))
    case StoreBlob(m) => req.Put? && NotAhead(w.rows, o, m)
    case WriteRow(m) =>
      (req.Verify? || req.Put?) && o in w.rows && SameIdentity(m, w.rows[o]) && m.uploaded && ValidOID(o) &&
      (req.Put? ==> HasContent(w, o)) && (req.Verify? ==> m.size == req.rawSize)
    case FillAfterWrite(m) => (req.Verify? || req.Put?) && NotAhead(w.rows, o, m) && m.uploaded &&
      (req.Put? ==> HasContent(w, o)) && (req.Verify? ==> m.size == req.rawSize)
    case DropBatchKey => req.Verify? && Uploaded(w, o) && w.rows[o].size == req.rawSize
    case LoadBlob(m) => req.Fetch? && NotAhead(w.rows, o, m) && m.uploaded
    case Done(out) => OutcomeOk(w, req, out)
  }

  ghost predicate Inv(s: System) {
    WorldInv(s.world) && forall pid :: pid in s.procs ==> ProcessInv(s.world, s.procs[pid])
  }

  /** How the stores move: rows are never removed, what identifies them never changes, `uploaded`
      only goes up, and blobs are never removed. */
  ghost predicate Grows(w: World, w': World) {
    && (forall o :: o in w.rows ==>
          o in w'.rows && SameIdentity(w.rows[o], w'.rows[o]) && (w.rows[o].uploaded ==> w'.rows[o].uploaded))
    && w.blobs.Keys <= w'.blobs.Keys
  }

  // ---------- one step ----------

  /** What one process knows survives whatever the others do. */
  lemma KnowledgeIsStable(w: World, w': World, p: Process)
    requires ProcessInv(w, p) && Grows(w, w')
    ensures ProcessInv(w', p)
  {
  }

  lemma CacheWriteKeepsAgreement(rows: Rows, cache: Cache, oid: string, m: Meta, f: Fault)
    requires CacheNotAhead(rows, cache) && NotAhead(rows, oid, m)
    ensures CacheNotAhead(rows, WriteCache(cache, MetadataKey(oid), MetaV(m), f))
  {
    forall o ensures MetadataKey(o) == MetadataKey(oid) ==> o == oid {
      KeysInjective(Metadata, o, Metadata, oid);
    }
  }

  lemma OtherFamiliesKeepAgreement(rows: Rows, cache: Cache, family: Family, name: string, v: Value)
    requires CacheNotAhead(rows, cache) && family != Metadata
    ensures CacheNotAhead(rows, cache[Key(family, name) := v])
    ensures CacheNotAhead(rows, cache - {Key(family, name)})
  {
    forall o ensures MetadataKey(o) != Key(family, name) {
      KeysInjective(Metadata, o, family, name);
    }
  }

  lemma RowWriteKeepsAgreement(w: World, m: Meta)
    requires WorldInv(w) && RowOk(m.oid, m)
    requires m.oid in w.rows ==> SameIdentity(m, w.rows[m.oid]) && m.uploaded
    ensures WorldInv(w.(rows := w.rows[m.oid := m])) && Grows(w, w.(rows := w.rows[m.oid := m]))
  {
  }

  lemma BlobWriteKeepsAgreement(w: World, oid: OID, body: seq<bv8>)
    requires WorldInv(w) && oid in w.rows && |body| == w.rows[oid].size
    ensures WorldInv(w.(blobs := w.blobs[ObjectKey(oid) := body]))
  {
    forall o: OID ensures ObjectKey(o) == ObjectKey(oid) ==> o == oid {
      ObjectKeyInjective(o, oid);
    }
  }

  /** A copy the cache or the table hands out is the record that is there, and not ahead of the row. */
  lemma LookupsAreNotAhead(w: World, oid: OID, f: Fault)
    requires WorldInv(w)
    ensures ReadCache(w.cache, oid, f).Some? ==> NotAhead(w.rows, oid, ReadCache(w.cache, oid, f).value)
    ensures FindRow(w.rows, oid, f).Ok? ==> oid in w.rows && FindRow(w.rows, oid, f).value == w.rows[oid]
    ensures f == Fine && oid in w.rows ==> FindRow(w.rows, oid, f).Ok?
    ensures FindRow(w.rows, oid, f) == Err(NotFound) ==> oid !in w.rows
    ensures FindRow(w.rows, oid, f) != Err(SizeMismatch)
  {
    if oid in w.rows {
      ObjectKeyNotEmpty(oid);
    }
  }

  lemma AfterFindKnows(w: World, req: Request, isNew: bool, found: Result<Meta, Error>)
    requires WorldInv(w) && ValidOID(OidOf(req))
    requires found.Ok? ==> NotAhead(w.rows, OidOf(req), found.value)
    requires found != Err(SizeMismatch)
    ensures ProcessInv(w, Process(req, AfterFind(req, isNew, found)))
  {
    if req.Register? {
      OIDsAreAccepted(req.oid);
      ObjectKeyNotEmpty(req.oid);
    }
  }

  /** One store call of one process keeps the stores in order, moves them only forward, and leaves
      the process knowing what its next call relies on. */
  ghost predicate StepOk(w: World, p: Process, f: Fault) {
    var (w', p') := Advance(w, p, f);
    WorldInv(w') && Grows(w, w') && ProcessInv(w', p')
  }

  lemma ReadsAreOk(w: World, p: Process, f: Fault)
    requires WorldInv(w) && ProcessInv(w, p)
    requires p.next.ReadPolicy? || p.next.ReadCached? || p.next.ReadRow? || p.next.LoadBlob? || p.next.Done?
    ensures StepOk(w, p, f)
  {
    hide ObjectKey, MetadataKey;
    var req, o := p.req, OidOf(p.req);
    if p.next.ReadCached? || p.next.ReadRow? {
      LookupsAreNotAhead(w, o, f);
      var m, r := ReadCache(w.cache, o, f), FindRow(w.rows, o, f);
      if p.next.ReadCached? && m.Some? {
        AfterFindKnows(w, req, p.next.isNew, Ok(m.value));
      } else if p.next.ReadRow? && r.Err? {
        AfterFindKnows(w, req, p.next.isNew, r);
      }
    }
  }

  lemma CacheFillsAreOk(w: World, p: Process, f: Fault)
    requires WorldInv(w) && ProcessInv(w, p)
    requires p.next.FillAfterRead? || p.next.FillAfterInsert? || p.next.FillAfterWrite?
    ensures StepOk(w, p, f)
  {
    hide ObjectKey, MetadataKey;
    CacheWriteKeepsAgreement(w.rows, w.cache, OidOf(p.req), p.next.copy, f);
    if p.next.FillAfterRead? {
      AfterFindKnows(Advance(w, p, f).0, p.req, p.next.isNew, Ok(p.next.copy));
    }
  }

  lemma InsertIsOk(w: World, p: Process, f: Fault)
    requires WorldInv(w) && ProcessInv(w, p) && p.next.Insert?
    ensures StepOk(w, p, f)
  {
    hide ObjectKey, MetadataKey;
    if p.next.row.oid !in w.rows {
      RowWriteKeepsAgreement(w, p.next.row);
    }
  }

  lemma RowUpdateIsOk(w: World, p: Process, f: Fault)
    requires WorldInv(w) && ProcessInv(w, p) && p.next.WriteRow?
    ensures StepOk(w, p, f)
  {
    hide ObjectKey, MetadataKey;
    RowWriteKeepsAgreement(w, p.next.copy);
  }

  lemma PolicyWriteIsOk(w: World, p: Process, f: Fault)
    requires WorldInv(w) && ProcessInv(w, p) && p.next.SavePolicy?
    ensures StepOk(w, p, f)
  {
    hide ObjectKey, MetadataKey, RepositoryIdentifier.FullName, Column;
    if p.req.repository.Some? {
      StoredTextFits(p.req.repository.value.FullName());
    }
  }

  lemma BlobWriteIsOk(w: World, p: Process, f: Fault)
    requires WorldInv(w) && ProcessInv(w, p) && p.next.StoreBlob?
    ensures StepOk(w, p, f)
  {
    hide ObjectKey, MetadataKey;
    if p.next.copy.size <= |p.req.body| {
      BlobWriteKeepsAgreement(w, p.req.oid, p.req.body[..p.next.copy.size]);
    }
  }

  lemma BatchKeyDropIsOk(w: World, p: Process, f: Fault)
    requires WorldInv(w) && ProcessInv(w, p) && p.next.DropBatchKey?
    ensures StepOk(w, p, f)
  {
    hide ObjectKey, MetadataKey;
    OtherFamiliesKeepAgreement(w.rows, w.cache, BatchUpload, OidOf(p.req), TextV(""));
  }

  lemma AdvanceIsOk(w: World, p: Process, f: Fault)
    requires WorldInv(w) && ProcessInv(w, p)
    ensures StepOk(w, p, f)
  {
    if p.next.Insert? {
      InsertIsOk(w, p, f);
    } else if p.next.WriteRow? {
      RowUpdateIsOk(w, p, f);
    } else if p.next.FillAfterRead? || p.next.FillAfterInsert? || p.next.FillAfterWrite? {
      CacheFillsAreOk(w, p, f);
    } else if p.next.SavePolicy? {
      PolicyWriteIsOk(w, p, f);
    } else if p.next.StoreBlob? {
      BlobWriteIsOk(w, p, f);
    } else if p.next.DropBatchKey? {
      BatchKeyDropIsOk(w, p, f);
    } else {
      ReadsAreOk(w, p, f);
    }
  }

  /** The invariant is inductive: every event keeps it, and the stores only move forward. */
  lemma StepKeepsInvariant(s: System, e: Event)
    requires Inv(s)
    ensures Inv(Exec(s, e)) && Grows(s.world, Exec(s, e).world)
  {
    hide ObjectKey, MetadataKey;
    match e {
      case Arrive(pid, req) =>
      case Step(pid, f) =>
        if pid in s.procs {
          AdvanceIsOk(s.world, s.procs[pid], f);
          var s' := Exec(s, e);
          forall q | q in s'.procs ensures ProcessInv(s'.world, s'.procs[q]) {
            if q != pid {
              KnowledgeIsStable(s.world, s'.world, s.procs[q]);
            }
          }
        }
      case Vanish(_) =>
      case Foreign(family, name, v) =>
        if family != Metadata {
          OtherFamiliesKeepAgreement(s.world.rows, s.world.cache, family, name, v);
        }
    }
  }

  /** Over every run of every interleaving with every pattern of faults: the cache and all copies in
      flight stay behind the table, and records are monotone: a row is never removed, its size, hash
      algorithm and storage key never change, and `uploaded` never goes back to false. */
  lemma {:induction false} RunsKeepInvariant(s: System, events: seq<Event>)
    requires Inv(s)
    ensures Inv(Run(s, events)) && Grows(s.world, Run(s, events).world)
    decreases |events|
  {
    if events != [] {
      StepKeepsInvariant(s, events[0]);
      RunsKeepInvariant(Exec(s, events[0]), events[1..]);
    }
  }

  lemma ReachableInvariant(events: seq<Event>)
    ensures Inv(Run(INITIAL, events))
  {
    assert Inv(INITIAL);
    RunsKeepInvariant(INITIAL, events);
  }
}
