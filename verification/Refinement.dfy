// A request that is not interleaved: the store calls of Lifecycle, run to the end, are exactly the
// operations of Service. So what holds for every interleaving holds for the sequential code too.

module Refinement {
  import opened Prelude
  import opened Domain
  import opened CacheKeys
  import opened StorageKeys
  import opened Stores
  import opened BatchApi
  import opened Authorization
  import opened Service
  import Lifecycle
  import opened LifecycleInvariants

  type Request = Lifecycle.Request
  type Outcome = Lifecycle.Outcome
  type Process = Lifecycle.Process

  /** How the next store call goes. */
  function FaultOf(n: Lifecycle.Next, f: Faults): Fault {
    match n
    case ReadPolicy => f.policyRead
    case ReadCached(_) => f.cacheRead
    case ReadRow(_) => f.rowRead
    case FillAfterRead(_, _) => f.readFill
    case Insert(_, _, _) => f.write
    case FillAfterInsert(_, _, _) => f.writeFill
    case SavePolicy(_) => f.policyWrite
    case StoreBlob(_) => f.blob
    case WriteRow(_) => f.write
    case FillAfterWrite(_) => f.writeFill
    case DropBatchKey => f.batchKey
    case LoadBlob(_) => f.blob
    case Done(_) => Fine
  }

  /** A bound on the store calls still to come. */
  function Rank(n: Lifecycle.Next): nat {
    match n
    case ReadPolicy => 8
    case ReadCached(_) => 7
    case ReadRow(_) => 6
    case FillAfterRead(_, _) => 5
    case StoreBlob(_) => 4
    case Insert(_, _, _) => 3
    case WriteRow(_) => 3
    case FillAfterInsert(_, _, _) => 2
    case FillAfterWrite(_) => 2
    case SavePolicy(_) => 1
    case DropBatchKey => 1
    case LoadBlob(_) => 1
    case Done(_) => 0
  }

  lemma StepsGoDown(w: World, p: Process, f: Fault)
    ensures Rank(Lifecycle.Advance(w, p, f).1.next) < Rank(p.next) || p.next.Done?
  {
  }

  /** The process runs alone until it is done. */
  function Alone(w: World, p: Process, f: Faults): (World, Outcome)
    decreases Rank(p.next)
  {
    if p.next.Done? then (w, p.next.outcome)
    else
      var (w', p') := Lifecycle.Advance(w, p, FaultOf(p.next, f));
      StepsGoDown(w, p, FaultOf(p.next, f));
      Alone(w', p', f)
  }

  /** The same request as one operation of Service. */
  function Operation(w: World, req: Request, f: Faults): (World, Outcome) {
    match req
    case Register(c, repo, oid, size, hashAlgo) =>
      var (w', r) := RegisterObject(w, c, repo, oid, size, hashAlgo, f);
      (w', if r.Ok? then Lifecycle.Answered(r.value) else Lifecycle.Failed(r.error))
    case Put(owner, name, oid, body) =>
      var (w', r) := ProxyUpload(w, owner, name, oid, body, f);
      (w', if r.Ok? then Lifecycle.Stored else Lifecycle.Failed(r.error))
    case Verify(oid, size) =>
      var (w', r) := VerifyUpload(w, oid, size, f);
      (w', if r.Ok? then Lifecycle.Verified else Lifecycle.Failed(r.error))
    case Advertise(c, repo, oid, size) =>
      var (w', r) := AdvertiseObject(w, c, repo, oid, size, f);
      (w', if r.Ok? then Lifecycle.Answered(r.value) else Lifecycle.Failed(r.error))
    case Fetch(owner, name, oid) =>
      var (w', r) := ProxyDownload(w, owner, name, oid, f);
      (w', if r.Ok? then Lifecycle.Streamed(r.value.content, r.value.size) else Lifecycle.Failed(r.error))
  }

  lemma OneStep(w: World, p: Process, f: Faults)
    requires !p.next.Done?
    ensures Alone(w, p, f) == Alone(Lifecycle.Advance(w, p, FaultOf(p.next, f)).0,
                                    Lifecycle.Advance(w, p, FaultOf(p.next, f)).1, f)
  {
    StepsGoDown(w, p, FaultOf(p.next, f));
  }

  /** The lookup every request goes through is Find. */
  lemma LookupIsFind(w: World, req: Request, isNew: bool, f: Faults)
    ensures var (w', found) := Find(w, Lifecycle.OidOf(req), f);
      Alone(w, Lifecycle.Process(req, Lifecycle.ReadCached(isNew)), f) ==
      Alone(w', Lifecycle.Process(req, Lifecycle.AfterFind(req, isNew, found)), f)
  {
    hide Lifecycle.AfterFind;
    var p := Lifecycle.Process(req, Lifecycle.ReadCached(isNew));
    OneStep(w, p, f);
    if ReadCache(w.cache, Lifecycle.OidOf(req), f.cacheRead).None? {
      var p' := Lifecycle.Process(req, Lifecycle.ReadRow(isNew));
      OneStep(w, p', f);
      var r := FindRow(w.rows, Lifecycle.OidOf(req), f.rowRead);
      if r.Ok? {
        OneStep(w, Lifecycle.Process(req, Lifecycle.FillAfterRead(isNew, r.value)), f);
      }
    }
  }

  lemma UpdateSteps(w: World, req: Request, m: Meta, f: Faults)
    requires req.Put? || req.Verify?
    ensures var (w', r) := Update(w, m, f);
      Alone(w, Lifecycle.Process(req, Lifecycle.WriteRow(m)), f) ==
      if r.Err? then (w', Lifecycle.Failed(if req.Verify? then UpdateFailed else r.error))
      else if req.Put? then (w', Lifecycle.Stored)
      else (w'.(cache := DeleteKey(w'.cache, BatchUploadKey(req.rawOid), f.batchKey)), Lifecycle.Verified)
  {
    hide BatchUploadKey, MetadataKey;
    var p := Lifecycle.Process(req, Lifecycle.WriteRow(m));
    OneStep(w, p, f);
    var (rows, r) := UpdateRow(w.rows, m, f.write);
    if r.Ok? {
      var w1 := w.(rows := rows);
      OneStep(w1, Lifecycle.Process(req, Lifecycle.FillAfterWrite(m)), f);
      if req.Verify? {
        OneStep(Update(w, m, f).0, Lifecycle.Process(req, Lifecycle.DropBatchKey), f);
      }
    }
  }

  lemma AnswerSteps(w: World, req: Request, isNew: bool, resp: ResponseObject, f: Faults)
    requires req.Register? && req.repository.Some?
    ensures Alone(w, Lifecycle.Process(req, Lifecycle.AfterAnswer(isNew, resp)), f) ==
      if isNew && resp.error.None? then
        var (w', saved) := UpsertPolicy(w, req.oid, req.repository.value, f.policyWrite);
        (w', if saved.Ok? then Lifecycle.Answered(resp) else Lifecycle.Failed(PolicySaveFailed))
      else (w, Lifecycle.Answered(resp))
  {
    if isNew && resp.error.None? {
      OneStep(w, Lifecycle.Process(req, Lifecycle.SavePolicy(resp)), f);
    }
  }

  lemma UploadSteps(w: World, req: Request, isNew: bool, f: Faults)
    requires req.Register? && req.repository.Some?
    ensures var (w', resp) := UploadObject(w, req.context, req.oid, req.size, req.hashAlgo, f);
      Alone(w, Lifecycle.Process(req, Lifecycle.ReadCached(isNew)), f) ==
      Alone(w', Lifecycle.Process(req, Lifecycle.AfterAnswer(isNew, resp)), f)
  {
    hide MetadataKey, Find, ReadCache, FindRow, NewAction;
    LookupIsFind(w, req, isNew, f);
    var (w1, found) := Find(w, req.oid, f);
    match PlanUpload(req.context, req.oid, req.size, req.hashAlgo, found) {
      case Respond(_) =>
      case Register(row, resp) =>
        OneStep(w1, Lifecycle.Process(req, Lifecycle.Insert(isNew, row, resp)), f);
        var (rows, r) := InsertRow(w1.rows, row, f.write);
        if r.Ok? {
          OneStep(w1.(rows := rows), Lifecycle.Process(req, Lifecycle.FillAfterInsert(isNew, row, resp)), f);
        }
    }
  }

  lemma RegisterSteps(w: World, req: Request, f: Faults)
    requires req.Register?
    ensures Alone(w, Lifecycle.Process(req, Lifecycle.ReadPolicy), f) == Operation(w, req, f)
  {
    hide MetadataKey, UploadObject, UpsertPolicy, FindPolicy;
    OneStep(w, Lifecycle.Process(req, Lifecycle.ReadPolicy), f);
    var auth := CheckAuthorization(w.policies, UPLOAD, req.repository, req.oid, f.policyRead);
    AuthorizationDecision(w.policies, UPLOAD, req.repository, req.oid, f.policyRead);
    if auth.Ok? {
      UploadSteps(w, req, auth.value.isNewObject, f);
      var (w1, resp) := UploadObject(w, req.context, req.oid, req.size, req.hashAlgo, f);
      AnswerSteps(w1, req, auth.value.isNewObject, resp, f);
    }
  }

  lemma PutSteps(w: World, req: Request, f: Faults)
    requires req.Put?
    ensures Alone(w, Lifecycle.Process(req, Lifecycle.ReadPolicy), f) == Operation(w, req, f)
  {
    hide MetadataKey, Find, NewRepositoryIdentifier, FindPolicy, Update;
    OneStep(w, Lifecycle.Process(req, Lifecycle.ReadPolicy), f);
    var auth := CheckAuthorization(w.policies, UPLOAD, Lifecycle.RepositoryOf(req), req.oid, f.policyRead);
    if auth.Ok? {
      LookupIsFind(w, req, auth.value.isNewObject, f);
      var (w1, found) := Find(w, req.oid, f);
      if found.Ok? {
        var m := found.value;
        OneStep(w1, Lifecycle.Process(req, Lifecycle.StoreBlob(m)), f);
        var (blobs, r) := PutBlob(w1.blobs, m.storageKey, req.body, m.size, f.blob);
        var w2 := w1.(blobs := blobs);
        if r.Ok? {
          UpdateSteps(w2, req, MarkedUploaded(m), f);
          assert ProxyUpload(w, req.owner, req.name, req.oid, req.body, f) == Update(w2, MarkedUploaded(m), f);
        } else {
          assert Operation(w, req, f) == (w2, Lifecycle.Failed(r.error));
        }
      }
    }
  }

  lemma VerifySteps(w: World, req: Request, f: Faults)
    requires req.Verify? && Lifecycle.Start(req).ReadCached?
    ensures Alone(w, Lifecycle.Process(req, Lifecycle.Start(req)), f) == Operation(w, req, f)
  {
    hide MetadataKey, BatchUploadKey, Find, Update;
    LookupIsFind(w, req, false, f);
    var (w1, found) := Find(w, req.rawOid, f);
    if found.Ok? && found.value.size == req.rawSize {
      UpdateSteps(w1, req, MarkedUploaded(found.value), f);
    }
  }

  lemma DownloadSteps(w: World, req: Request, f: Faults)
    requires req.Advertise? || req.Fetch?
    ensures Alone(w, Lifecycle.Process(req, Lifecycle.ReadPolicy), f) == Operation(w, req, f)
  {
    hide MetadataKey, Find, NewRepositoryIdentifier, FindPolicy, AnswerDownload;
    OneStep(w, Lifecycle.Process(req, Lifecycle.ReadPolicy), f);
    var auth := CheckAuthorization(w.policies, DOWNLOAD, Lifecycle.RepositoryOf(req), req.oid, f.policyRead);
    if auth.Ok? {
      LookupIsFind(w, req, auth.value.isNewObject, f);
      var (w1, found) := Find(w, req.oid, f);
      if req.Fetch? && found.Ok? && found.value.uploaded {
        OneStep(w1, Lifecycle.Process(req, Lifecycle.LoadBlob(found.value)), f);
      }
    }
  }

  /** Small steps are big steps: for every request, every state of the stores and every pattern of
      faults, running the store calls one by one gives the stores and the outcome of the operation. */
  lemma SmallStepsAreTheOperation(w: World, req: Request, f: Faults)
    ensures Alone(w, Lifecycle.Process(req, Lifecycle.Start(req)), f) == Operation(w, req, f)
  {
    match req {
      case Register(_, _, _, _, _) => RegisterSteps(w, req, f);
      case Put(_, _, _, _) => PutSteps(w, req, f);
      case Verify(_, _) =>
        if Lifecycle.Start(req).ReadCached? {
          VerifySteps(w, req, f);
        }
      case Advertise(_, _, _, _) => DownloadSteps(w, req, f);
      case Fetch(_, _, _) => DownloadSteps(w, req, f);
    }
  }

  // ---------- consequences ----------

  lemma {:induction false} AloneKeepsInvariant(w: World, p: Process, f: Faults)
    requires WorldInv(w) && ProcessInv(w, p)
    ensures var (w', out) := Alone(w, p, f); WorldInv(w') && Grows(w, w') && OutcomeOk(w', p.req, out)
    decreases Rank(p.next)
  {
    hide WorldInv, ProcessInv, Lifecycle.Advance;
    if p.next.Done? {
      DoneKnows(w, p);
    } else {
      var fault := FaultOf(p.next, f);
      var (w1, p1) := Lifecycle.Advance(w, p, fault);
      AdvanceIsOk(w, p, fault);
      Lifecycle.Footprint(w, p, fault);
      StepsGoDown(w, p, fault);
      AloneKeepsInvariant(w1, p1, f);
    }
  }

  lemma DoneKnows(w: World, p: Process)
    requires ProcessInv(w, p) && p.next.Done?
    ensures OutcomeOk(w, p.req, p.next.outcome)
  {
  }

  /** Every sequential operation keeps the invariants of the interleaved service and only moves the
      records forward, and its outcome tells the truth about them. */
  lemma OperationsKeepInvariant(w: World, req: Request, f: Faults)
    requires WorldInv(w)
    ensures var (w', out) := Operation(w, req, f); WorldInv(w') && Grows(w, w') && OutcomeOk(w', req, out)
  {
    hide WorldInv, Operation;
    SmallStepsAreTheOperation(w, req, f);
    AloneKeepsInvariant(w, Lifecycle.Process(req, Lifecycle.Start(req)), f);
  }

  /** The steps of `pid` from where it is to its end. */
  function Schedule(pid: nat, w: World, p: Process, f: Faults): seq<Lifecycle.Event>
    decreases Rank(p.next)
  {
    if p.next.Done? then []
    else
      var (w', p') := Lifecycle.Advance(w, p, FaultOf(p.next, f));
      StepsGoDown(w, p, FaultOf(p.next, f));
      [Lifecycle.Step(pid, FaultOf(p.next, f))] + Schedule(pid, w', p', f)
  }

  lemma {:induction false} ScheduleRuns(s: Lifecycle.System, pid: nat, f: Faults)
    requires pid in s.procs
    ensures var p := s.procs[pid]; var (w', out) := Alone(s.world, p, f);
      Lifecycle.Run(s, Schedule(pid, s.world, p, f)) ==
      Lifecycle.System(w', s.procs[pid := Lifecycle.Process(p.req, Lifecycle.Done(out))])
    decreases Rank(s.procs[pid].next)
  {
    hide Lifecycle.Advance;
    var p := s.procs[pid];
    if p.next.Done? {
      assert s.procs[pid := p] == s.procs;
    } else {
      var fault := FaultOf(p.next, f);
      var (w1, p1) := Lifecycle.Advance(s.world, p, fault);
      StepsGoDown(s.world, p, fault);
      Lifecycle.Footprint(s.world, p, fault);
      var s1 := Lifecycle.System(w1, s.procs[pid := p1]);
      assert Lifecycle.Exec(s, Lifecycle.Step(pid, fault)) == s1;
      Lifecycle.RunNext(s, Lifecycle.Step(pid, fault), Schedule(pid, w1, p1, f));
      ScheduleRuns(s1, pid, f);
      assert s1.procs[pid := Lifecycle.Process(p.req, Lifecycle.Done(Alone(w1, p1, f).1))] ==
             s.procs[pid := Lifecycle.Process(p.req, Lifecycle.Done(Alone(w1, p1, f).1))];
    }
  }

  /** The uninterrupted operation is one of the interleavings of the service. */
  lemma OperationIsARun(s: Lifecycle.System, pid: nat, req: Request, f: Faults)
    requires pid !in s.procs
    ensures var (w', out) := Operation(s.world, req, f); var p := Lifecycle.Process(req, Lifecycle.Start(req));
      Lifecycle.Run(s, [Lifecycle.Arrive(pid, req)] + Schedule(pid, s.world, p, f)) ==
      Lifecycle.System(w', s.procs[pid := Lifecycle.Process(req, Lifecycle.Done(out))])
  {
    hide Operation;
    var p := Lifecycle.Process(req, Lifecycle.Start(req));
    var s1 := s.(procs := s.procs[pid := p]);
    Lifecycle.RunNext(s, Lifecycle.Arrive(pid, req), Schedule(pid, s.world, p, f));
    ScheduleRuns(s1, pid, f);
    SmallStepsAreTheOperation(s.world, req, f);
    var done := Lifecycle.Process(req, Lifecycle.Done(Operation(s.world, req, f).1));
    assert s1.procs[pid := done] == s.procs[pid := done];
  }

  /** Verify alone marks an object nobody has uploaded: registering and verifying it is enough. */
  lemma VerifyCanBeBlind(c: CallContext, repo: Repo, oid: OID, size: nat)
    requires Column(repo.FullName()).Some?
    ensures var w0 := World(map[], map[], map[], map[]);
      var (w1, registered) := RegisterObject(w0, c, Some(repo), oid, size, DEFAULT_HASH_ALGORITHM, NO_FAULTS);
      var (w2, verified) := VerifyUpload(w1, oid, size, NO_FAULTS);
      registered.Ok? && verified.Ok? && Uploaded(w2, oid) && !HasContent(w2, oid)
  {
    hide MetadataKey, BatchUploadKey, ObjectKey, RepositoryIdentifier.FullName;
    ObjectKeyNotEmpty(oid);
    AuthorizationDecision(map[], UPLOAD, Some(repo), oid, Fine);
    var row := Meta(oid, size, DEFAULT_HASH_ALGORITHM, ObjectKey(oid), false);
    assert Reconstruct(row) == Ok(row);
  }
}
