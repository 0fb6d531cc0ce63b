// Repeating an upload batch: idempotence, and convergence after failed attempts.

/** With a cache that agrees with the table, a registration is an operation on the two tables alone. */
module Registration {
  import opened Prelude
  import opened Domain
  import opened CacheKeys
  import opened StorageKeys
  import opened RedisValues
  import opened Stores
  import opened BatchApi
  import opened Authorization
  import opened Service
  import opened LifecycleInvariants
  import opened Batch

  /** Every cached record is the current row. */
  ghost predicate CacheAgrees(w: World) {
    forall o :: MetadataKey(o) in w.cache ==>
      w.cache[MetadataKey(o)].MetaV? && o in w.rows && w.cache[MetadataKey(o)].meta == w.rows[o]
  }

  ghost predicate Coherent(w: World) {
    WorldInv(w) && CacheAgrees(w)
  }

  /** What the tables hold about one object. */
  datatype Cell = Cell(row: Option<Meta>, policy: Option<string>)

  function CellOf(w: World, oid: string): Cell {
    Cell(if oid in w.rows then Some(w.rows[oid]) else None, if oid in w.policies then Some(w.policies[oid]) else None)
  }

  function FreshRow(oid: OID, size: nat): Meta {
    Meta(oid, size, DEFAULT_HASH_ALGORITHM, ObjectKey(oid), false)
  }

  predicate Denied(cell: Cell, repo: Repo) {
    cell.policy.Some? && cell.policy.value != repo.FullName()
  }

  /** The size announced does not fit an object that is already there. */
  predicate Conflicting(cell: Cell, size: nat) {
    cell.row.Some? && cell.row.value.uploaded && cell.row.value.size != size
  }

  predicate NeedsPolicy(cell: Cell, size: nat) {
    cell.policy.None? && !Conflicting(cell, size)
  }

  function WithRow(cell: Cell, oid: OID, size: nat): Cell {
    if cell.row.Some? then cell else cell.(row := Some(FreshRow(oid, size)))
  }

  /** The policy a repository leaves, if the column takes its name. */
  function PolicyText(repo: Repo): Option<string> {
    Column(repo.FullName())
  }

  /** A registration without faults: the cell it leaves. */
  function Settled(cell: Cell, repo: Repo, oid: OID, size: nat): Cell {
    if Denied(cell, repo) then cell
    else if NeedsPolicy(cell, size) then WithRow(cell, oid, size).(policy := PolicyText(repo))
    else WithRow(cell, oid, size)
  }

  function LookupAnswer(cell: Cell, c: CallContext, oid: OID, size: nat): ResponseObject {
    if Conflicting(cell, size) then Failure(oid, size, CONFLICT)
    else if cell.row.Some? && cell.row.value.uploaded then AlreadyThere(oid, size)
    else UploadResponse(c, oid, size)
  }

  /** ... and its answer. */
  function SettledAnswer(cell: Cell, c: CallContext, repo: Repo, oid: OID, size: nat): Result<ResponseObject, Error> {
    if Denied(cell, repo) then
      Err(if NewRepositoryIdentifier(cell.policy.value).Ok? then AccessDenied else AuthorizationFailed)
    else if NeedsPolicy(cell, size) && PolicyText(repo).None? then Err(PolicySaveFailed)
    else Ok(LookupAnswer(cell, c, oid, size))
  }

  /** How far a registration can get when store calls fail: not at all, to the row, or all the way. */
  predicate PartWay(cell: Cell, after: Cell, repo: Repo, oid: OID, size: nat) {
    after == cell ||
    (!Denied(cell, repo) && (after == WithRow(cell, oid, size) || after == Settled(cell, repo, oid, size)))
  }

  ghost predicate OnlyChanges(w: World, w': World, oid: string) {
    forall o :: o != oid ==> CellOf(w', o) == CellOf(w, o)
  }

  lemma FindIsCurrent(w: World, oid: OID, f: Faults)
    requires Coherent(w)
    ensures var (w1, found) := Find(w, oid, f);
      && Coherent(w1) && w1 == w.(cache := w1.cache)
      && (found.Ok? ==> oid in w.rows && found.value == w.rows[oid])
      && (found == Err(NotFound) ==> oid !in w.rows)
      && (f == NO_FAULTS ==> found == if oid in w.rows then Ok(w.rows[oid]) else Err(NotFound))
  {
    hide ObjectKey;
    if oid in w.rows {
      ObjectKeyNotEmpty(oid);
      CacheWriteKeepsAgreement(w.rows, w.cache, oid, w.rows[oid], f.readFill);
      FillAgrees(w, oid, f.readFill);
    }
  }

  lemma FillAgrees(w: World, oid: string, f: Fault)
    requires CacheAgrees(w) && oid in w.rows
    ensures CacheAgrees(w.(cache := WriteCache(w.cache, MetadataKey(oid), MetaV(w.rows[oid]), f)))
  {
    forall o ensures MetadataKey(o) == MetadataKey(oid) ==> o == oid {
      KeysInjective(Metadata, o, Metadata, oid);
    }
  }

  lemma SaveAgrees(w: World, oid: OID, size: nat, f: Faults)
    requires Coherent(w)
    ensures var (w1, r) := Save(w, FreshRow(oid, size), f);
      && Coherent(w1) && OnlyChanges(w, w1, oid) && w1.policies == w.policies
      && (CellOf(w1, oid) == CellOf(w, oid) || CellOf(w1, oid) == WithRow(CellOf(w, oid), oid, size))
      && (r.Ok? ==> oid !in w.rows && oid in w1.rows)
      && (f == NO_FAULTS && oid !in w.rows ==> r.Ok?)
  {
    hide ObjectKey;
    var row := FreshRow(oid, size);
    if oid !in w.rows && f.write != Lost {
      RowWriteKeepsAgreement(w, row);
      var w0 := w.(rows := w.rows[oid := row]);
      assert CacheAgrees(w0);
      CacheWriteKeepsAgreement(w0.rows, w0.cache, oid, row, f.writeFill);
      FillAgrees(w0, oid, f.writeFill);
    }
  }

  lemma UploadEffect(w: World, c: CallContext, oid: OID, size: nat, f: Faults)
    requires Coherent(w)
    ensures var (w1, resp) := UploadObject(w, c, oid, size, DEFAULT_HASH_ALGORITHM, f); var cell := CellOf(w, oid);
      && Coherent(w1) && OnlyChanges(w, w1, oid) && w1.policies == w.policies
      && (CellOf(w1, oid) == cell || CellOf(w1, oid) == WithRow(cell, oid, size))
      && (resp.error.None? ==> !Conflicting(cell, size) && CellOf(w1, oid) == WithRow(cell, oid, size))
      && (f == NO_FAULTS ==> CellOf(w1, oid) == WithRow(cell, oid, size) && resp == LookupAnswer(cell, c, oid, size))
  {
    hide ObjectKey, Find, Save, NewAction, WorldInv, CacheAgrees;
    FindIsCurrent(w, oid, f);
    ObjectKeyNotEmpty(oid);
    SaveAgrees(Find(w, oid, f).0, oid, size, f);
  }

  lemma PolicyEffect(w: World, oid: OID, repo: Repo, f: Fault)
    requires Coherent(w) && oid in w.rows
    ensures var (w1, r) := UpsertPolicy(w, oid, repo, f); var named := CellOf(w, oid).(policy := PolicyText(repo));
      && Coherent(w1) && OnlyChanges(w, w1, oid)
      && (CellOf(w1, oid) == CellOf(w, oid) || (PolicyText(repo).Some? && CellOf(w1, oid) == named))
      && (f == Fine ==> (r.Ok? <==> PolicyText(repo).Some?) &&
                        CellOf(w1, oid) == if PolicyText(repo).Some? then named else CellOf(w, oid))
  {
    hide ObjectKey, RepositoryIdentifier.FullName, MetadataKey, Column;
    StoredTextFits(repo.FullName());
  }

  /** What Authorize sees of the object. */
  lemma AuthorizeSees(w: World, repo: Repo, oid: OID, f: Fault)
    ensures var a := CheckAuthorization(w.policies, UPLOAD, Some(repo), oid, f); var cell := CellOf(w, oid);
      && (a.Ok? ==> f == Fine && !Denied(cell, repo) && (a.value.isNewObject <==> cell.policy.None?))
      && (f == Fine && !Denied(cell, repo) ==> a.Ok?)
      && (f == Fine && Denied(cell, repo) ==>
          a == Err(if NewRepositoryIdentifier(w.policies[oid]).Ok? then AccessDenied else AuthorizationFailed))
  {
    hide RepositoryIdentifier.FullName, NewRepositoryIdentifier;
    AuthorizationDecision(w.policies, UPLOAD, Some(repo), oid, f);
    if oid in w.policies {
      OnlyFormatErrors(w.policies[oid]);
    }
  }

  lemma OnlyFormatErrors(text: string)
    ensures NewRepositoryIdentifier(text).Err? ==> NewRepositoryIdentifier(text).error == InvalidRepositoryFormat
  {
  }

  /** One turn of the batch: with a coherent cache and any faults it gets part of the way and keeps
      the cache coherent; without faults it settles the object. */
  lemma TurnEffect(w: World, c: CallContext, repo: Repo, obj: RequestObject, f: Faults)
    requires Coherent(w) && ValidOID(obj.oid) && obj.size >= 0
    ensures var (w1, r) := UploadTurn(w, c, Some(repo), DEFAULT_HASH_ALGORITHM, obj, f); var cell := CellOf(w, obj.oid);
      && Coherent(w1) && OnlyChanges(w, w1, obj.oid)
      && PartWay(cell, CellOf(w1, obj.oid), repo, obj.oid, obj.size)
      && (Denied(cell, repo) ==> r.Err?)
      && (f == NO_FAULTS ==>
          CellOf(w1, obj.oid) == Settled(cell, repo, obj.oid, obj.size) &&
          r == SettledAnswer(cell, c, repo, obj.oid, obj.size))
  {
    hide ObjectKey, UploadObject, RepositoryIdentifier.FullName, NewRepositoryIdentifier, CheckAuthorization,
      UpsertPolicy,
         Column, LookupAnswer, CacheAgrees, WorldInv;
    var oid, size := obj.oid, obj.size;
    AuthorizeSees(w, repo, oid, f.policyRead);
    UploadEffect(w, c, oid, size, f);
    var (w1, resp) := UploadObject(w, c, oid, size, DEFAULT_HASH_ALGORITHM, f);
    AnswerHasError(CellOf(w, oid), c, oid, size);
    if resp.error.None? {
      PolicyEffect(w1, oid, repo, f.policyWrite);
    }
  }

  lemma AnswerHasError(cell: Cell, c: CallContext, oid: OID, size: nat)
    ensures LookupAnswer(cell, c, oid, size).error.Some? <==> Conflicting(cell, size)
  {
  }
}

module Retry {
  import opened Prelude
  import opened Domain
  import opened StorageKeys
  import opened Stores
  import opened BatchApi
  import opened Service
  import opened Batch
  import opened Registration

  function NoFaults(n: nat): seq<Faults> {
    seq(n, _ => NO_FAULTS)
  }

  function Upload(w: World, c: CallContext, repo: Repo, objects: seq<RequestObject>, fs: seq<Faults>): (World, Answers)
    requires |fs| == |objects|
  {
    UploadAll(w, c, Some(repo), DEFAULT_HASH_ALGORITHM, objects, fs)
  }

  ghost predicate SameCells(w: World, w': World) {
    forall o :: CellOf(w, o) == CellOf(w', o)
  }

  lemma SameTables(w: World, w': World)
    requires SameCells(w, w')
    ensures w.rows == w'.rows && w.policies == w'.policies
  {
    forall o ensures (o in w.rows <==> o in w'.rows) && (o in w.policies <==> o in w'.policies)
      ensures (o in w.rows ==> w.rows[o] == w'.rows[o]) && (o in w.policies ==> w.policies[o] == w'.policies[o])
    {
      assert CellOf(w, o) == CellOf(w', o);
    }
  }

  // ---------- the same batch once more ----------

  predicate LaterCell(cell: Cell, later: Cell, repo: Repo) {
    && (cell.row.Some? ==> later.row == cell.row)
    && (cell.policy.Some? ==> later.policy == cell.policy)
    && (cell.policy.None? ==> later.policy.None? || later.policy == PolicyText(repo))
  }

  /** `t` is what `w` becomes when the repository registers more objects. */
  ghost predicate Later(w: World, t: World, repo: Repo) {
    forall o :: LaterCell(CellOf(w, o), CellOf(t, o), repo)
  }

  lemma SettledStays(cell: Cell, later: Cell, c: CallContext, repo: Repo, oid: OID, size: nat)
    requires LaterCell(Settled(cell, repo, oid, size), later, repo)
    ensures Settled(later, repo, oid, size) == later
    ensures var before, after := SettledAnswer(cell, c, repo, oid, size), SettledAnswer(later, c, repo, oid, size);
      after == before || (CutOff(repo.FullName()) && after.Err?)
    ensures LaterCell(cell, Settled(cell, repo, oid, size), repo)
  {
    hide ObjectKey, RepositoryIdentifier.FullName, Column, NewRepositoryIdentifier;
  }

  lemma LaterIsTransitive(w: World, u: World, t: World, repo: Repo)
    requires Later(w, u, repo) && Later(u, t, repo)
    ensures Later(w, t, repo)
  {
    hide CellOf, Column, RepositoryIdentifier.FullName;
    forall o ensures LaterCell(CellOf(w, o), CellOf(t, o), repo) {
      assert LaterCell(CellOf(w, o), CellOf(u, o), repo) && LaterCell(CellOf(u, o), CellOf(t, o), repo);
    }
  }

  /** The answer to a repeated request: the same, except that a repository whose name was cut off is
      denied access to what it has registered. */
  predicate SameAnswer<T(==)>(repo: Repo, first: Result<T, Error>, again: Result<T, Error>) {
    again == first || (CutOff(repo.FullName()) && again.Err?)
  }

  /** One turn without faults, and the same turn from any later state. */
  lemma RepeatedTurn(w: World, t: World, c: CallContext, repo: Repo, obj: RequestObject)
    requires Coherent(w) && ValidOID(obj.oid) && obj.size >= 0
    ensures var (w1, r1) := UploadTurn(w, c, Some(repo), DEFAULT_HASH_ALGORITHM, obj, NO_FAULTS);
      && Coherent(w1) && Later(w, w1, repo)
      && (Coherent(t) && Later(w1, t, repo) ==>
          var (t1, r) := UploadTurn(t, c, Some(repo), DEFAULT_HASH_ALGORITHM, obj, NO_FAULTS);
          SameAnswer(repo, r1, r) && SameCells(t, t1) && Coherent(t1))
  {
    hide UploadTurn, Coherent, Settled, SettledAnswer, PartWay, CellOf, CutOff, RepositoryIdentifier.FullName;
    TurnEffect(w, c, repo, obj, NO_FAULTS);
    var w1 := UploadTurn(w, c, Some(repo), DEFAULT_HASH_ALGORITHM, obj, NO_FAULTS).0;
    SettledStays(CellOf(w, obj.oid), Settled(CellOf(w, obj.oid), repo, obj.oid, obj.size), c, repo, obj.oid, obj.size);
    if Coherent(t) && Later(w1, t, repo) {
      TurnEffect(t, c, repo, obj, NO_FAULTS);
      assert LaterCell(CellOf(w1, obj.oid), CellOf(t, obj.oid), repo);
      SettledStays(CellOf(w, obj.oid), CellOf(t, obj.oid), c, repo, obj.oid, obj.size);
      var t1 := UploadTurn(t, c, Some(repo), DEFAULT_HASH_ALGORITHM, obj, NO_FAULTS).0;
      forall o ensures CellOf(t, o) == CellOf(t1, o) {
        assert o != obj.oid ==> CellOf(t1, o) == CellOf(t, o);
      }
    }
  }

  lemma {:induction false} BatchIsLater(w: World, c: CallContext, repo: Repo, objects: seq<RequestObject>)
    requires Coherent(w) && WellFormed(objects)
    ensures var w' := Upload(w, c, repo, objects, NoFaults(|objects|)).0; Coherent(w') && Later(w, w', repo)
    decreases |objects|
  {
    hide UploadTurn, Coherent, CellOf, Column, RepositoryIdentifier.FullName;
    if objects != [] {
      assert NoFaults(|objects|)[1..] == NoFaults(|objects[1..]|);
      var (w1, r1) := UploadTurn(w, c, Some(repo), DEFAULT_HASH_ALGORITHM, objects[0], NO_FAULTS);
      RepeatedTurn(w, w1, c, repo, objects[0]);
      if r1.Ok? {
        BatchIsLater(w1, c, repo, objects[1..]);
        LaterIsTransitive(w, w1, Upload(w1, c, repo, objects[1..], NoFaults(|objects[1..]|)).0, repo);
      }
    }
  }

  lemma {:induction false} RepeatedBatch(w: World, t: World, c: CallContext, repo: Repo, objects: seq<RequestObject>)
    requires Coherent(w) && Coherent(t) && WellFormed(objects)
    requires Later(Upload(w, c, repo, objects, NoFaults(|objects|)).0, t, repo)
    ensures var (t', r) := Upload(t, c, repo, objects, NoFaults(|objects|));
      SameAnswer(repo, Upload(w, c, repo, objects, NoFaults(|objects|)).1, r) && SameCells(t, t')
    decreases |objects|
  {
    hide UploadTurn, Coherent, CellOf, LaterCell, CutOff;
    if objects != [] {
      var rest := objects[1..];
      assert NoFaults(|objects|)[1..] == NoFaults(|rest|);
      var (w1, r1) := UploadTurn(w, c, Some(repo), DEFAULT_HASH_ALGORITHM, objects[0], NO_FAULTS);
      RepeatedTurn(w, t, c, repo, objects[0]);
      if r1.Ok? {
        BatchIsLater(w1, c, repo, rest);
        LaterIsTransitive(w1, Upload(w1, c, repo, rest, NoFaults(|rest|)).0, t, repo);
        var (t1, again) := UploadTurn(t, c, Some(repo), DEFAULT_HASH_ALGORITHM, objects[0], NO_FAULTS);
        if again.Ok? {
          RepeatedBatch(w1, t1, c, repo, rest);
        }
      }
    }
  }

  /** Idempotent upload batch: without faults and with a coherent cache, sending the same batch again
      changes no row, no policy and no blob, whatever the sizes and however often an oid occurs in it,
      and gives the same response or error unless the repository's name was cut off. */
  lemma IdempotentUploadBatch(w: World, c: CallContext, req: BatchRequest)
    requires Coherent(w)
    ensures var fs := NoFaults(|req.objects|);
      var (w1, r1) := BatchUpload(w, c, req, fs); var (w2, r2) := BatchUpload(w1, c, req, fs);
      && w2.rows == w1.rows && w2.policies == w1.policies && w2.blobs == w1.blobs == w.blobs
      && (r2 == r1 || (req.repository.Some? && CutOff(req.repository.value.FullName()) && r2.Err?))
  {
    hide UploadTurn, Coherent, CellOf, LaterCell, CutOff;
    ValidateIsExact(req);
    if Validate(req).Ok? && req.operation == UPLOAD {
      var fs := NoFaults(|req.objects|);
      var w1 := BatchUpload(w, c, req, fs).0;
      BlobsUntouched(w, c, req.repository, DEFAULT_HASH_ALGORITHM, req.objects, fs);
      BlobsUntouched(w1, c, req.repository, DEFAULT_HASH_ALGORITHM, req.objects, fs);
      if req.repository.None? {
        NobodyIsDenied(w, c, req.objects[0]);
      } else {
        BatchIsLater(w, c, req.repository.value, req.objects);
        LaterIsReflexive(w1, req.repository.value);
        RepeatedBatch(w, w1, c, req.repository.value, req.objects);
        SameTables(w1, BatchUpload(w1, c, req, fs).0);
      }
    }
  }

  ghost predicate AlwaysAnsweredAlike(repo: Repo) {
    forall w, c, req: BatchRequest :: Coherent(w) && req.repository == Some(repo) ==>
      var fs := NoFaults(|req.objects|);
      var (w1, r1) := BatchUpload(w, c, req, fs);
      BatchUpload(w1, c, req, fs).1 == r1
  }

  const EMPTY := World(map[], map[], map[], map[])
  const NO_CONTEXT := CallContext("", "", "", "")

  /** The repositories for which a repeated batch is always answered alike: exactly those whose name
      the column does not cut off. */
  lemma AnsweredAlikeExactlyWhen(repo: Repo)
    ensures AlwaysAnsweredAlike(repo) <==> !CutOff(repo.FullName())
  {
    hide Coherent, BatchUpload, CutOff;
    forall w, c, req: BatchRequest | Coherent(w) && req.repository == Some(repo) && !CutOff(repo.FullName())
      ensures var fs := NoFaults(|req.objects|);
        var (w1, r1) := BatchUpload(w, c, req, fs);
        BatchUpload(w1, c, req, fs).1 == r1
    {
      IdempotentUploadBatch(w, c, req);
    }
    if CutOff(repo.FullName()) {
      var oid: OID := seq(64, _ => '0');
      CutOffNamesAreDenied(repo, oid);
    }
  }

  lemma EmptyIsCoherent()
    ensures Coherent(EMPTY)
  {
  }

  /** The first batch registers the object under the name cut off; the second one is denied it. */
  lemma CutOffNamesAreDenied(repo: Repo, oid: OID)
    requires CutOff(repo.FullName())
    ensures var req := BatchRequest(UPLOAD, [RequestObject(oid, 0)], "", Some(repo));
      var (w1, r1) := BatchUpload(EMPTY, NO_CONTEXT, req, NoFaults(1));
      Coherent(EMPTY) && r1.Ok? && BatchUpload(w1, NO_CONTEXT, req, NoFaults(1)).1.Err?
  {
    hide Coherent, UploadTurn, RepositoryIdentifier.FullName, Column, ObjectKey, NewRepositoryIdentifier, BatchUpload;
    EmptyIsCoherent();
    var obj := RequestObject(oid, 0);
    TurnEffect(EMPTY, NO_CONTEXT, repo, obj, NO_FAULTS);
    var (w1, r1) := UploadTurn(EMPTY, NO_CONTEXT, Some(repo), DEFAULT_HASH_ALGORITHM, obj, NO_FAULTS);
    assert CellOf(EMPTY, oid) == Cell(None, None);
    TurnEffect(w1, NO_CONTEXT, repo, obj, NO_FAULTS);
    BatchOfOne(EMPTY, NO_CONTEXT, repo, oid);
    BatchOfOne(w1, NO_CONTEXT, repo, oid);
  }

  lemma BatchOfOne(w: World, c: CallContext, repo: Repo, oid: OID)
    ensures var (w1, r1) := BatchUpload(w, c, BatchRequest(UPLOAD, [RequestObject(oid, 0)], "", Some(repo)),
                                        NoFaults(1));
      var (w2, r2) := UploadTurn(w, c, Some(repo), DEFAULT_HASH_ALGORITHM, RequestObject(oid, 0), NO_FAULTS);
      w1 == w2 && (r1.Ok? <==> r2.Ok?)
  {
    hide UploadTurn, Validate;
    var req := BatchRequest(UPLOAD, [RequestObject(oid, 0)], "", Some(repo));
    ValidateIsExact(req);
    assert Validate(req).Ok?;
    UploadOne(w, c, repo, req.objects[0], NO_FAULTS);
    assert NoFaults(1) == [NO_FAULTS];
  }

  lemma UploadOne(w: World, c: CallContext, repo: Repo, obj: RequestObject, f: Faults)
    ensures var (w1, r) := UploadTurn(w, c, Some(repo), DEFAULT_HASH_ALGORITHM, obj, f);
      Upload(w, c, repo, [obj], [f]) == (w1, if r.Ok? then Ok([r.value]) else Err(r.error))
  {
    hide UploadTurn;
    var (w1, r) := UploadTurn(w, c, Some(repo), DEFAULT_HASH_ALGORITHM, obj, f);
    assert [obj][1..] == [] && [f][1..] == [];
    assert UploadAll(w1, c, Some(repo), DEFAULT_HASH_ALGORITHM, [obj][1..], [f][1..]) == (w1, Ok([]));
    assert r.Ok? ==> [r.value] + [] == [r.value];
  }

  lemma NobodyIsDenied(w: World, c: CallContext, obj: RequestObject)
    requires ValidOID(obj.oid) && obj.size >= 0
    ensures UploadTurn(w, c, None, DEFAULT_HASH_ALGORITHM, obj, NO_FAULTS) == (w, Err(AccessDenied))
  {
  }

  lemma LaterIsReflexive(w: World, repo: Repo)
    ensures Later(w, w, repo)
  {
  }

  lemma {:induction false} BlobsUntouched(w: World, c: CallContext, repo: Option<Repo>, h: string,
                                          objects: seq<RequestObject>, fs: seq<Faults>)
    requires |fs| == |objects|
    ensures UploadAll(w, c, repo, h, objects, fs).0.blobs == w.blobs
    decreases |objects|
  {
    hide PlanUpload, FindRow, ReadCache;
    if objects != [] {
      BlobsUntouched(UploadTurn(w, c, repo, h, objects[0], fs[0]).0, c, repo, h, objects[1..], fs[1..]);
    }
  }

  // ---------- attempts broken by faults ----------

  /** The batch gives each oid one size. */
  ghost predicate OneSize(objects: seq<RequestObject>, size: map<string, nat>) {
    forall i :: 0 <= i < |objects| ==> objects[i].oid in size && size[objects[i].oid] == objects[i].size
  }

  /** The oid occurs in the batch before the first object that belongs to somebody else. */
  predicate Reached(w: World, repo: Repo, objects: seq<RequestObject>, o: string)
    decreases |objects|
  {
    objects != [] && !Denied(CellOf(w, objects[0].oid), repo) &&
    (objects[0].oid == o || Reached(w, repo, objects[1..], o))
  }

  /** Registering from here ends where registering from `cell` ends. */
  predicate OnTheWay(cell: Cell, now: Cell, repo: Repo, oid: OID, size: nat) {
    !Denied(cell, repo) && !Denied(now, repo) && Settled(now, repo, oid, size) == Settled(cell, repo, oid, size)
  }

  ghost predicate Between(w: World, w': World, repo: Repo, objects: seq<RequestObject>, size: map<string, nat>) {
    forall o ::
      if ValidOID(o) && o in size && Reached(w, repo, objects, o) then
        OnTheWay(CellOf(w, o), CellOf(w', o), repo, o, size[o])
      else CellOf(w', o) == CellOf(w, o)
  }

  lemma PartWayIsOnTheWay(cell: Cell, after: Cell, repo: Repo, oid: OID, size: nat)
    requires PartWay(cell, after, repo, oid, size) && FitsColumn(repo) && !Denied(cell, repo)
    ensures OnTheWay(cell, after, repo, oid, size)
    ensures Settled(Settled(cell, repo, oid, size), repo, oid, size) == Settled(cell, repo, oid, size)
  {
    hide ObjectKey, RepositoryIdentifier.FullName, Column;
  }

  lemma {:induction false} ReachedStays(w: World, w': World, repo: Repo, objects: seq<RequestObject>, o: string)
    requires forall x :: Denied(CellOf(w', x), repo) == Denied(CellOf(w, x), repo)
    ensures Reached(w', repo, objects, o) == Reached(w, repo, objects, o)
    decreases |objects|
  {
    if objects != [] {
      ReachedStays(w, w', repo, objects[1..], o);
    }
  }

  /** One broken attempt, wherever its faults stop it, leaves every object on its way. */
  lemma {:induction false} AttemptIsBetween(w: World, c: CallContext, repo: Repo, objects: seq<RequestObject>,
                                            fs: seq<Faults>,
                                            size: map<string, nat>)
    requires Coherent(w) && WellFormed(objects) && OneSize(objects, size) && FitsColumn(repo) && |fs| == |objects|
    ensures var w' := Upload(w, c, repo, objects, fs).0; Coherent(w') && Between(w, w', repo, objects, size)
    decreases |objects|
  {
    hide UploadTurn, Coherent, CellOf, Settled, Denied, PartWay, FitsColumn;
    if objects != [] {
      var obj, rest := objects[0], objects[1..];
      var (w1, r1) := UploadTurn(w, c, Some(repo), DEFAULT_HASH_ALGORITHM, obj, fs[0]);
      TurnEffect(w, c, repo, obj, fs[0]);
      TurnIsBetween(w, w1, repo, objects, size);
      if r1.Ok? {
        AttemptIsBetween(w1, c, repo, rest, fs[1..], size);
        BetweenChain(w, w1, Upload(w1, c, repo, rest, fs[1..]).0, repo, objects, size);
      }
    }
  }

  /** The first turn moves only the first object, and only if it is not denied. */
  ghost predicate FirstMoved(w: World, w1: World, repo: Repo, objects: seq<RequestObject>, size: map<string, nat>)
    requires objects != []
  {
    forall o :: if o == objects[0].oid && ValidOID(o) && o in size && !Denied(CellOf(w, o), repo)
                then OnTheWay(CellOf(w, o), CellOf(w1, o), repo, o, size[o]) else CellOf(w1, o) == CellOf(w, o)
  }

  lemma TurnIsBetween(w: World, w1: World, repo: Repo, objects: seq<RequestObject>, size: map<string, nat>)
    requires objects != [] && WellFormed(objects) && OneSize(objects, size) && FitsColumn(repo)
    requires OnlyChanges(w, w1, objects[0].oid)
    requires PartWay(CellOf(w, objects[0].oid), CellOf(w1, objects[0].oid), repo, objects[0].oid, objects[0].size)
    ensures FirstMoved(w, w1, repo, objects, size) && Between(w, w1, repo, objects, size)
  {
    hide CellOf, Settled, WithRow, FitsColumn;
    var oid := objects[0].oid;
    if !Denied(CellOf(w, oid), repo) {
      PartWayIsOnTheWay(CellOf(w, oid), CellOf(w1, oid), repo, oid, objects[0].size);
    }
    forall o | Reached(w, repo, objects, o) && ValidOID(o) && o in size
      ensures OnTheWay(CellOf(w, o), CellOf(w1, o), repo, o, size[o])
    {
      ReachedIsNotDenied(w, repo, objects, o);
    }
  }

  lemma {:induction false} ReachedIsNotDenied(w: World, repo: Repo, objects: seq<RequestObject>, o: string)
    requires Reached(w, repo, objects, o)
    ensures !Denied(CellOf(w, o), repo)
    decreases |objects|
  {
    if objects[0].oid != o {
      ReachedIsNotDenied(w, repo, objects[1..], o);
    }
  }

  lemma BetweenChain(w: World, w1: World, w2: World, repo: Repo, objects: seq<RequestObject>, size: map<string, nat>)
    requires objects != [] && WellFormed(objects) && OneSize(objects, size)
    requires FirstMoved(w, w1, repo, objects, size) && Between(w1, w2, repo, objects[1..], size)
    requires !Denied(CellOf(w, objects[0].oid), repo)
    ensures Between(w, w2, repo, objects, size)
  {
    hide CellOf, Settled, Denied;
    forall o
      ensures
        if ValidOID(o) && o in size && Reached(w, repo, objects, o) then
          OnTheWay(CellOf(w, o), CellOf(w2, o), repo, o, size[o])
        else CellOf(w2, o) == CellOf(w, o)
    {
      ReachedStays(w, w1, repo, objects[1..], o);
      assert Reached(w, repo, objects, o) <==> objects[0].oid == o || Reached(w, repo, objects[1..], o);
      if Reached(w, repo, objects, o) {
        ReachedIsNotDenied(w, repo, objects, o);
      }
    }
  }

  lemma BetweenIsTransitive(w: World, w1: World, w2: World, repo: Repo, objects: seq<RequestObject>,
                            size: map<string, nat>)
    requires Between(w, w1, repo, objects, size) && Between(w1, w2, repo, objects, size)
    ensures Between(w, w2, repo, objects, size)
  {
    hide CellOf, Settled, Denied;
    forall o
      ensures
        if ValidOID(o) && o in size && Reached(w, repo, objects, o) then
          OnTheWay(CellOf(w, o), CellOf(w2, o), repo, o, size[o])
        else CellOf(w2, o) == CellOf(w, o)
    {
      ReachedStays(w, w1, repo, objects, o);
    }
  }

  /** A fault-free attempt settles every object it reaches and touches nothing else. */
  ghost predicate SettledBy(w: World, w': World, repo: Repo, objects: seq<RequestObject>, size: map<string, nat>) {
    forall o :: CellOf(w', o) ==
      if ValidOID(o) && o in size && Reached(w, repo, objects, o) then Settled(CellOf(w, o), repo, o, size[o])
      else CellOf(w, o)
  }

  lemma {:induction false} FaultFreeSettles(w: World, c: CallContext, repo: Repo, objects: seq<RequestObject>,
                                            size: map<string, nat>)
    requires Coherent(w) && WellFormed(objects) && OneSize(objects, size) && FitsColumn(repo)
    ensures SettledBy(w, Upload(w, c, repo, objects, NoFaults(|objects|)).0, repo, objects, size)
    decreases |objects|
  {
    hide UploadTurn, Coherent, CellOf, Settled, Denied, PartWay, Column, LookupAnswer;
    if objects != [] {
      var obj, rest := objects[0], objects[1..];
      assert NoFaults(|objects|)[1..] == NoFaults(|rest|);
      var (w1, r1) := UploadTurn(w, c, Some(repo), DEFAULT_HASH_ALGORITHM, obj, NO_FAULTS);
      TurnEffect(w, c, repo, obj, NO_FAULTS);
      TurnIsBetween(w, w1, repo, objects, size);
      if r1.Ok? {
        FaultFreeSettles(w1, c, repo, rest, size);
        SettledChain(w, w1, Upload(w1, c, repo, rest, NoFaults(|rest|)).0, repo, objects, size);
      } else {
        DeniedSettles(w, repo, objects, size);
      }
    }
  }

  lemma DeniedSettles(w: World, repo: Repo, objects: seq<RequestObject>, size: map<string, nat>)
    requires objects != [] && Denied(CellOf(w, objects[0].oid), repo)
    ensures SettledBy(w, w, repo, objects, size)
    ensures ValidOID(objects[0].oid) && objects[0].size >= 0 ==>
      Settled(CellOf(w, objects[0].oid), repo, objects[0].oid, objects[0].size) == CellOf(w, objects[0].oid)
  {
  }

  lemma SettledChain(w: World, w1: World, w2: World, repo: Repo, objects: seq<RequestObject>, size: map<string, nat>)
    requires objects != [] && WellFormed(objects) && OneSize(objects, size) && FitsColumn(repo)
    requires FirstMoved(w, w1, repo, objects, size) && !Denied(CellOf(w, objects[0].oid), repo)
    requires CellOf(w1, objects[0].oid) == Settled(CellOf(w, objects[0].oid), repo, objects[0].oid, objects[0].size)
    requires SettledBy(w1, w2, repo, objects[1..], size)
    ensures SettledBy(w, w2, repo, objects, size)
  {
    hide CellOf, Settled, Denied, FitsColumn;
    forall o ensures CellOf(w2, o) ==
      if ValidOID(o) && o in size && Reached(w, repo, objects, o) then Settled(CellOf(w, o), repo, o, size[o])
      else CellOf(w, o)
    {
      ReachedStays(w, w1, repo, objects[1..], o);
      assert Reached(w, repo, objects, o) <==> objects[0].oid == o || Reached(w, repo, objects[1..], o);
    }
  }

  /** Each attempt has faults for every object. */
  predicate OnePerObject(attempts: seq<seq<Faults>>, objects: seq<RequestObject>) {
    forall i :: 0 <= i < |attempts| ==> |attempts[i]| == |objects|
  }

  /** Any number of attempts, one after the other. */
  function Attempts(w: World, c: CallContext, repo: Repo, objects: seq<RequestObject>,
                    attempts: seq<seq<Faults>>): World
    requires OnePerObject(attempts, objects)
    decreases |attempts|
  {
    if attempts == [] then w else Attempts(Upload(w, c, repo, objects, attempts[0]).0, c, repo, objects, attempts[1..])
  }

  lemma {:induction false} AttemptsAreBetween(w: World, c: CallContext, repo: Repo, objects: seq<RequestObject>,
                                              attempts: seq<seq<Faults>>, size: map<string, nat>)
    requires Coherent(w) && WellFormed(objects) && OneSize(objects, size) && FitsColumn(repo)
    requires OnePerObject(attempts, objects)
    ensures var w' := Attempts(w, c, repo, objects, attempts);
      Coherent(w') && (attempts == [] || Between(w, w', repo, objects, size))
    decreases |attempts|
  {
    hide Coherent, Between, Upload, FitsColumn;
    if attempts != [] {
      var w1 := Upload(w, c, repo, objects, attempts[0]).0;
      AttemptIsBetween(w, c, repo, objects, attempts[0], size);
      AttemptsAreBetween(w1, c, repo, objects, attempts[1..], size);
      if attempts[1..] != [] {
        BetweenIsTransitive(w, w1, Attempts(w1, c, repo, objects, attempts[1..]), repo, objects, size);
      }
    }
  }

  /** The tables after the broken attempts and one fault-free one are those of a single fault-free one. */
  ghost predicate Converges(w: World, c: CallContext, repo: Repo, objects: seq<RequestObject>,
                            attempts: seq<seq<Faults>>)
    requires OnePerObject(attempts, objects)
  {
    var fs := NoFaults(|objects|);
    var once := Upload(w, c, repo, objects, fs).0;
    var finally := Upload(Attempts(w, c, repo, objects, attempts), c, repo, objects, fs).0;
    finally.rows == once.rows && finally.policies == once.policies
  }

  /** Retry convergence: for a batch that gives each oid one size, sent for a repository whose name
      fits the policy column, with a coherent cache and nothing else running, any number of attempts
      broken by any faults followed by one fault-free attempt ends where one fault-free attempt ends. */
  lemma RetriesConverge(w: World, c: CallContext, repo: Repo, objects: seq<RequestObject>, attempts: seq<seq<Faults>>,
                        size: map<string, nat>)
    requires Coherent(w) && WellFormed(objects) && OneSize(objects, size) && FitsColumn(repo)
    requires OnePerObject(attempts, objects)
    ensures Converges(w, c, repo, objects, attempts)
  {
    hide Coherent, Upload, FitsColumn, CellOf, Settled;
    var w1, fs := Attempts(w, c, repo, objects, attempts), NoFaults(|objects|);
    AttemptsAreBetween(w, c, repo, objects, attempts, size);
    FaultFreeSettles(w, c, repo, objects, size);
    FaultFreeSettles(w1, c, repo, objects, size);
    var once, finally := Upload(w, c, repo, objects, fs).0, Upload(w1, c, repo, objects, fs).0;
    forall o ensures CellOf(finally, o) == CellOf(once, o) {
      if attempts != [] {
        ReachedStays(w, w1, repo, objects, o);
      }
    }
    SameTables(finally, once);
  }

}
