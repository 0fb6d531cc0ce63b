// The caching repository and the use cases as they are written: methods that change the stores
// call by call. Each is proved against its operation in Service or Batch.

module Backend {
  import opened Prelude
  import opened Domain
  import opened Stores
  import opened Redis

  /** `lfs_objects` behind its repository: rows are checked again on the way out. */
  class ObjectTable {
    var rows: Rows

    constructor ()
      ensures rows == map[]
    {
      rows := map[];
    }

    method FindByOID(oid: string, f: Fault) returns (r: Result<LFSObject, Error>)
      ensures r.Ok? ==> fresh(r.value) && FindRow(rows, oid, f) == Ok(r.value.Record())
      ensures r.Err? ==> FindRow(rows, oid, f) == Err(r.error)
    {
      if f != Fine {
        return Err(StoreFailure);
      }
      if oid !in rows {
        return Err(NotFound);
      }
      var m := Reconstruct(rows[oid]);
      if m.Err? {
        return Err(m.error);
      }
      var obj := new LFSObject(m.value);
      return Ok(obj);
    }

    method Save(obj: LFSObject, f: Fault) returns (r: Result<(), Error>)
      modifies this
      ensures (rows, r) == InsertRow(old(rows), obj.Record(), f)
    {
      if f == Lost || obj.oid in rows {
        return Err(StoreFailure);
      }
      rows := rows[obj.oid := obj.Record()];
      return if f == Fine then Ok(()) else Err(StoreFailure);
    }

    method Update(obj: LFSObject, f: Fault) returns (r: Result<(), Error>)
      modifies this
      ensures (rows, r) == UpdateRow(old(rows), obj.Record(), f)
    {
      if f == Lost {
        return Err(StoreFailure);
      }
      var affected := obj.oid in rows;
      if affected {
        rows := rows[obj.oid := obj.Record()];
      }
      if f == Unacked {
        return Err(StoreFailure);
      }
      return if affected then Ok(()) else Err(NotFound);
    }
  }

  class PolicyTable {
    var rows: Policies

    constructor ()
      ensures rows == map[]
    {
      rows := map[];
    }

    /** The foreign key looks at the objects' table. */
    method Save(objects: ObjectTable, oid: OID, repo: Repo, f: Fault) returns (r: Result<(), Error>)
      modifies this
      ensures var w := World(objects.rows, old(rows), map[], map[]);
        (World(objects.rows, rows, map[], map[]), r) == UpsertPolicy(w, oid, repo, f)
    {
      var text := Column(repo.FullName());
      if f == Lost || oid !in objects.rows || text.None? {
        return Err(StoreFailure);
      }
      rows := rows[oid := text.value];
      return if f == Fine then Ok(()) else Err(StoreFailure);
    }
  }

  class Bucket {
    var blobs: Blobs

    constructor ()
      ensures blobs == map[]
    {
      blobs := map[];
    }

    method PutObject(key: string, body: seq<bv8>, length: int, f: Fault) returns (r: Result<(), Error>)
      modifies this
      ensures (blobs, r) == PutBlob(old(blobs), key, body, length, f)
    {
      if f == Lost || length < 0 || |body| < length {
        return Err(StoreFailure);
      }
      blobs := blobs[key := body[..length]];
      return if f == Fine then Ok(()) else Err(StoreFailure);
    }
  }

  /** The stores one server is wired to. */
  class Backend {
    const objects: ObjectTable
    const policies: PolicyTable
    const redis: RedisClient
    const bucket: Bucket

    constructor ()
      ensures World() == Stores.World(map[], map[], map[], map[])
      ensures fresh(objects) && fresh(policies) && fresh(redis) && fresh(bucket)
    {
      objects := new ObjectTable();
      policies := new PolicyTable();
      redis := new RedisClient();
      bucket := new Bucket();
    }

    function World(): World
      reads objects, policies, redis, bucket
    {
      Stores.World(objects.rows, policies.rows, redis.Contents(), bucket.blobs)
    }
  }
}

module Repository {
  import opened Prelude
  import opened Domain
  import opened CacheKeys
  import opened RedisValues
  import opened Stores
  import opened Redis
  import Backend
  import opened Service

  class CachingLFSObjectRepository {
    const backend: Backend.Backend

    constructor (backend: Backend.Backend)
      ensures this.backend == backend
    {
      this.backend := backend;
    }

    method FindByOID(oid: string, f: Faults) returns (r: Result<LFSObject, Error>)
      modifies backend.redis`entries
      ensures backend.World() == Find(old(backend.World()), oid, f).0
      ensures r.Ok? ==> fresh(r.value) && Find(old(backend.World()), oid, f).1 == Ok(r.value.Record())
      ensures r.Err? ==> Find(old(backend.World()), oid, f).1 == Err(r.error)
      ensures backend.redis.entries ==
              if r.Err? || ReadCache(old(backend.redis.Contents()), oid, f.cacheRead).Some?
              then old(backend.redis.entries)
              else SetEntry(old(backend.redis.entries), backend.redis.now, MetadataKey(oid), MetaV(r.value.Record()),
                            METADATA_TTL, f.readFill)
    {
      var cached := backend.redis.Get(MetadataKey(oid), f.cacheRead);
      if cached.Ok? && cached.value.MetaV? {
        var m := Reconstruct(cached.value.meta);
        if m.Ok? {
          var obj := new LFSObject(m.value);
          return Ok(obj);
        }
      }
      r := backend.objects.FindByOID(oid, f.rowRead);
      if r.Err? {
        return;
      }
      CacheMetadata(oid, r.value, f.readFill);
    }

    method Save(obj: LFSObject, f: Faults) returns (r: Result<(), Error>)
      modifies backend.objects, backend.redis`entries
      ensures (backend.World(), r) == Service.Save(old(backend.World()), obj.Record(), f)
      ensures backend.redis.entries ==
              if r.Err? then old(backend.redis.entries)
              else SetEntry(old(backend.redis.entries), backend.redis.now, MetadataKey(obj.oid), MetaV(obj.Record()),
                            METADATA_TTL, f.writeFill)
    {
      r := backend.objects.Save(obj, f.write);
      if r.Err? {
        return;
      }
      CacheMetadata(obj.oid, obj, f.writeFill);
    }

    method Update(obj: LFSObject, f: Faults) returns (r: Result<(), Error>)
      modifies backend.objects, backend.redis`entries
      ensures (backend.World(), r) == Service.Update(old(backend.World()), obj.Record(), f)
      ensures backend.redis.entries ==
              if r.Err? then old(backend.redis.entries)
              else SetEntry(old(backend.redis.entries), backend.redis.now, MetadataKey(obj.oid), MetaV(obj.Record()),
                            METADATA_TTL, f.writeFill)
    {
      r := backend.objects.Update(obj, f.write);
      if r.Err? {
        return;
      }
      CacheMetadata(obj.oid, obj, f.writeFill);
    }

    method ExistsByOID(oid: string, f: Faults) returns (r: Result<bool, Error>)
      ensures r == Exists(backend.World(), oid, f)
    {
      var cached := backend.redis.Exists(MetadataKey(oid), f.cacheRead);
      if cached.Ok? && cached.value {
        return Ok(true);
      }
      return RowExists(backend.objects.rows, oid, f.rowRead);
    }

    method DeleteBatchUploadKey(oid: string, f: Fault) returns (ok: bool)
      modifies backend.redis`entries
      ensures var w := old(backend.World()); backend.World() == w.(cache := DeleteKey(w.cache, BatchUploadKey(oid), f))
    {
      ok := backend.redis.Delete(BatchUploadKey(oid), f);
    }

    /** A failing write is ignored. */
    method CacheMetadata(oid: string, obj: LFSObject, f: Fault)
      modifies backend.redis`entries
      ensures var w := old(backend.World());
        backend.World() == w.(cache := WriteCache(w.cache, MetadataKey(oid), MetaV(obj.Record()), f))
      ensures backend.redis.entries ==
              SetEntry(old(backend.redis.entries), backend.redis.now, MetadataKey(oid), MetaV(obj.Record()),
                       METADATA_TTL, f)
    {
      var _ := backend.redis.Set(MetadataKey(oid), MetaV(obj.Record()), METADATA_TTL, f);
    }
  }
}

module UseCases {
  import opened Prelude
  import opened Domain
  import opened StorageKeys
  import opened Stores
  import opened BatchApi
  import opened Authorization
  import opened Service
  import Batches = Batch
  import opened Repository

  class UploadUseCase {
    const repo: CachingLFSObjectRepository

    constructor (repo: CachingLFSObjectRepository)
      ensures this.repo == repo
    {
      this.repo := repo;
    }

    method HandleUploadObject(c: CallContext, oid: OID, size: nat, hashAlgo: string, f: Faults)
      returns (resp: ResponseObject)
      modifies repo.backend.objects, repo.backend.redis`entries
      ensures (repo.backend.World(), resp) == UploadObject(old(repo.backend.World()), c, oid, size, hashAlgo, f)
    {
      var found := repo.FindByOID(oid, f);
      if found.Err? {
        if found.error != NotFound {
          return Failure(oid, size, INTERNAL_ERROR);
        }
        var storageKey := GenerateStorageKey(oid, hashAlgo);
        if storageKey.Err? {
          return Failure(oid, size, BAD_REQUEST);
        }
        var hashAlgorithm := NewHashAlgorithm(hashAlgo);
        if hashAlgorithm.Err? {
          return Failure(oid, size, BAD_REQUEST);
        }
        if storageKey.value == "" {
          return Failure(oid, size, INTERNAL_ERROR);
        }
        var obj := new LFSObject(Meta(oid, size, hashAlgorithm.value, storageKey.value, false));
        var saved := repo.Save(obj, f);
        if saved.Err? {
          return Failure(oid, size, INTERNAL_ERROR);
        }
      } else if found.value.uploaded {
        if found.value.size != size {
          return Failure(oid, size, CONFLICT);
        }
        return AlreadyThere(oid, size);
      }
      var header := map[];
      if c.authHeader != "" {
        header := header["Authorization" := c.authHeader];
      }
      var action := Action(ActionURL(c, oid), header, ACTION_LIFETIME_SECONDS);
      return ResponseObject(oid, size, true, Some(Actions(Some(action), None)), None);
    }
  }

  class BatchUploadUseCase {
    const uploads: UploadUseCase

    constructor (uploads: UploadUseCase)
      ensures this.uploads == uploads
    {
      this.uploads := uploads;
    }

    method CreateAccessPolicy(oid: OID, repo: Repo, f: Fault) returns (r: Result<(), Error>)
      modifies uploads.repo.backend.policies
      ensures (uploads.repo.backend.World(), r) == UpsertPolicy(old(uploads.repo.backend.World()), oid, repo, f)
    {
      var b := uploads.repo.backend;
      r := b.policies.Save(b.objects, oid, repo, f);
    }

    /** The body of the loop. */
    method HandleObject(c: CallContext, repository: Option<Repo>, hashAlgo: string, reqObj: RequestObject, f: Faults)
      returns (r: Result<ResponseObject, Error>)
      modifies uploads.repo.backend.objects, uploads.repo.backend.redis`entries, uploads.repo.backend.policies
      ensures (uploads.repo.backend.World(), r) ==
              Batches.UploadTurn(old(uploads.repo.backend.World()), c, repository, hashAlgo, reqObj, f)
    {
      var oid := NewOID(reqObj.oid);
      if oid.Err? {
        return Err(oid.error);
      }
      var size := NewSize(reqObj.size);
      if size.Err? {
        return Err(size.error);
      }
      var auth := CheckAuthorization(uploads.repo.backend.policies.rows, UPLOAD, repository, oid.value, f.policyRead);
      if auth.Err? {
        return Err(auth.error);
      }
      var resp := uploads.HandleUploadObject(c, oid.value, size.value, hashAlgo, f);
      if auth.value.isNewObject && resp.error.None? {
        var created := CreateAccessPolicy(oid.value, repository.value, f.policyWrite);
        if created.Err? {
          return Err(PolicySaveFailed);
        }
      }
      return Ok(resp);
    }

    method HandleBatchUpload(c: CallContext, req: BatchRequest, fs: seq<Faults>)
      returns (r: Result<BatchResponse, Error>)
      requires |fs| == |req.objects|
      modifies uploads.repo.backend.objects, uploads.repo.backend.redis`entries, uploads.repo.backend.policies
      ensures (uploads.repo.backend.World(), r) == Batches.BatchUpload(old(uploads.repo.backend.World()), c, req, fs)
    {
      var valid := Validate(req);
      if valid.Err? {
        return Err(valid.error);
      }
      if req.operation != UPLOAD {
        return Err(InvalidOperation);
      }
      var hashAlgo := if req.hashAlgo == "" then DEFAULT_HASH_ALGORITHM else req.hashAlgo;
      var objects: seq<ResponseObject> := [];
      ghost var w0 := uploads.repo.backend.World();
      for i := 0 to |req.objects|
        invariant Batches.UploadAll(w0, c, req.repository, hashAlgo, req.objects[..i], fs[..i]) ==
                (uploads.repo.backend.World(), Ok(objects))
      {
        ghost var w := uploads.repo.backend.World();
        var respObj := HandleObject(c, req.repository, hashAlgo, req.objects[i], fs[i]);
        UploadOneMore(w0, w, c, req.repository, hashAlgo, req.objects, fs, i, objects);
        if respObj.Err? {
          return Err(respObj.error);
        }
        objects := objects + [respObj.value];
      }
      assert req.objects[..|req.objects|] == req.objects && fs[..|fs|] == fs;
      return Ok(BatchResponse(DEFAULT_TRANSFER_TYPE, objects, hashAlgo));
    }
  }

  lemma UploadOneMore(w0: World, w: World, c: CallContext, repo: Option<Repo>, h: string, objects: seq<RequestObject>,
                      fs: seq<Faults>,
                      i: nat, answers: seq<ResponseObject>)
    requires |fs| == |objects| && i < |objects|
    requires Batches.UploadAll(w0, c, repo, h, objects[..i], fs[..i]) == (w, Ok(answers))
    ensures var (w', r) := Batches.UploadTurn(w, c, repo, h, objects[i], fs[i]);
      if r.Ok? then Batches.UploadAll(w0, c, repo, h, objects[..i + 1], fs[..i + 1]) == (w', Ok(answers + [r.value]))
      else Batches.UploadAll(w0, c, repo, h, objects, fs) == (w', Err(r.error))
  {
    hide Batches.UploadTurn;
    Batches.UploadAllAppend(w0, c, repo, h, objects[..i], objects[i..i + 1], fs[..i], fs[i..i + 1]);
    Batches.UploadAllAppend(w0, c, repo, h, objects[..i], objects[i..], fs[..i], fs[i..]);
    assert objects[..i] + objects[i..i + 1] == objects[..i + 1] && fs[..i] + fs[i..i + 1] == fs[..i + 1];
    assert objects[..i] + objects[i..] == objects && fs[..i] + fs[i..] == fs;
    var (w', r) := Batches.UploadTurn(w, c, repo, h, objects[i], fs[i]);
    assert Batches.UploadAll(w', c, repo, h, objects[i..i + 1][1..], fs[i..i + 1][1..]) == (w', Ok([]));
    assert r.Ok? ==> [r.value] + [] == [r.value];
  }

  class DownloadUseCase {
    const repo: CachingLFSObjectRepository

    constructor (repo: CachingLFSObjectRepository)
      ensures this.repo == repo
    {
      this.repo := repo;
    }

    method HandleDownloadObject(c: CallContext, oid: OID, size: nat, f: Faults) returns (resp: ResponseObject)
      modifies repo.backend.redis`entries
      ensures var (w1, found) := Find(old(repo.backend.World()), oid, f);
        repo.backend.World() == w1 && resp == AnswerDownload(c, oid, size, found)
    {
      var found := repo.FindByOID(oid, f);
      if found.Err? {
        return Failure(oid, size, if found.error == NotFound then MISSING else INTERNAL_ERROR);
      }
      if !found.value.uploaded {
        return Failure(oid, size, MISSING);
      }
      return DownloadResponse(c, oid, size);
    }
  }

  class BatchDownloadUseCase {
    const downloads: DownloadUseCase

    constructor (downloads: DownloadUseCase)
      ensures this.downloads == downloads
    {
      this.downloads := downloads;
    }

    /** The body of the loop. */
    method HandleObject(c: CallContext, repository: Option<Repo>, reqObj: RequestObject, f: Faults)
      returns (r: Result<ResponseObject, Error>)
      modifies downloads.repo.backend.redis`entries
      ensures (downloads.repo.backend.World(), r) ==
              Batches.DownloadTurn(old(downloads.repo.backend.World()), c, repository, reqObj, f)
    {
      var oid := NewOID(reqObj.oid);
      if oid.Err? {
        return Err(oid.error);
      }
      var size := NewSize(reqObj.size);
      if size.Err? {
        return Err(size.error);
      }
      var auth := CheckAuthorization(downloads.repo.backend.policies.rows, DOWNLOAD, repository, oid.value,
                                     f.policyRead);
      if auth.Err? {
        return Err(auth.error);
      }
      var resp := downloads.HandleDownloadObject(c, oid.value, size.value, f);
      return Ok(resp);
    }

    method HandleBatchDownload(c: CallContext, req: BatchRequest, fs: seq<Faults>)
      returns (r: Result<BatchResponse, Error>)
      requires |fs| == |req.objects|
      modifies downloads.repo.backend.redis`entries
      ensures (downloads.repo.backend.World(), r) ==
              Batches.BatchDownload(old(downloads.repo.backend.World()), c, req, fs)
    {
      var valid := Validate(req);
      if valid.Err? {
        return Err(valid.error);
      }
      if req.operation != DOWNLOAD {
        return Err(InvalidOperation);
      }
      var hashAlgo := if req.hashAlgo == "" then DEFAULT_HASH_ALGORITHM else req.hashAlgo;
      var objects: seq<ResponseObject> := [];
      ghost var w0 := downloads.repo.backend.World();
      for i := 0 to |req.objects|
        invariant Batches.DownloadAll(w0, c, req.repository, req.objects[..i], fs[..i]) ==
                (downloads.repo.backend.World(), Ok(objects))
      {
        ghost var w := downloads.repo.backend.World();
        var respObj := HandleObject(c, req.repository, req.objects[i], fs[i]);
        DownloadOneMore(w0, w, c, req.repository, req.objects, fs, i, objects);
        if respObj.Err? {
          return Err(respObj.error);
        }
        objects := objects + [respObj.value];
      }
      assert req.objects[..|req.objects|] == req.objects && fs[..|fs|] == fs;
      return Ok(BatchResponse(DEFAULT_TRANSFER_TYPE, objects, hashAlgo));
    }
  }

  lemma DownloadOneMore(w0: World, w: World, c: CallContext, repo: Option<Repo>, objects: seq<RequestObject>,
                        fs: seq<Faults>,
                        i: nat, answers: seq<ResponseObject>)
    requires |fs| == |objects| && i < |objects|
    requires Batches.DownloadAll(w0, c, repo, objects[..i], fs[..i]) == (w, Ok(answers))
    ensures var (w', r) := Batches.DownloadTurn(w, c, repo, objects[i], fs[i]);
      if r.Ok? then Batches.DownloadAll(w0, c, repo, objects[..i + 1], fs[..i + 1]) == (w', Ok(answers + [r.value]))
      else Batches.DownloadAll(w0, c, repo, objects, fs) == (w', Err(r.error))
  {
    hide Batches.DownloadTurn;
    Batches.DownloadAllAppend(w0, c, repo, objects[..i], objects[i..i + 1], fs[..i], fs[i..i + 1]);
    Batches.DownloadAllAppend(w0, c, repo, objects[..i], objects[i..], fs[..i], fs[i..]);
    assert objects[..i] + objects[i..i + 1] == objects[..i + 1] && fs[..i] + fs[i..i + 1] == fs[..i + 1];
    assert objects[..i] + objects[i..] == objects && fs[..i] + fs[i..] == fs;
    var (w', r) := Batches.DownloadTurn(w, c, repo, objects[i], fs[i]);
    assert Batches.DownloadAll(w', c, repo, objects[i..i + 1][1..], fs[i..i + 1][1..]) == (w', Ok([]));
    assert r.Ok? ==> [r.value] + [] == [r.value];
  }

  class ProxyUploadUseCase {
    const repo: CachingLFSObjectRepository

    constructor (repo: CachingLFSObjectRepository)
      ensures this.repo == repo
    {
      this.repo := repo;
    }

    method Execute(owner: string, name: string, oid: OID, body: seq<bv8>, f: Faults) returns (r: Result<(), Error>)
      modifies repo.backend.objects, repo.backend.redis`entries, repo.backend.bucket
      ensures (repo.backend.World(), r) == ProxyUpload(old(repo.backend.World()), owner, name, oid, body, f)
    {
      var repoIdentifier := NewRepositoryIdentifier(owner + "/" + name);
      if repoIdentifier.Err? {
        return Err(AccessDenied);
      }
      var auth := CheckAuthorization(repo.backend.policies.rows, UPLOAD, Some(repoIdentifier.value), oid, f.policyRead);
      if auth.Err? {
        return Err(auth.error);
      }
      var found := repo.FindByOID(oid, f);
      if found.Err? {
        return Err(if found.error == NotFound then ObjectNotFound else found.error);
      }
      var lfsObject := found.value;
      r := repo.backend.bucket.PutObject(lfsObject.storageKey, body, lfsObject.size, f.blob);
      if r.Err? {
        return;
      }
      lfsObject.MarkAsUploaded();
      r := repo.Update(lfsObject, f);
    }
  }

  class VerifyUseCase {
    const repo: CachingLFSObjectRepository

    constructor (repo: CachingLFSObjectRepository)
      ensures this.repo == repo
    {
      this.repo := repo;
    }

    method VerifyUpload(rawOid: string, rawSize: int, f: Faults) returns (r: Result<(), Error>)
      modifies repo.backend.objects, repo.backend.redis`entries
      ensures (repo.backend.World(), r) == Service.VerifyUpload(old(repo.backend.World()), rawOid, rawSize, f)
    {
      var oid := NewOID(rawOid);
      if oid.Err? {
        return Err(InvalidOID);
      }
      var size := NewSize(rawSize);
      if size.Err? {
        return Err(InvalidSize);
      }
      var found := repo.FindByOID(oid.value, f);
      if found.Err? {
        return Err(if found.error == NotFound then ObjectNotFound else FindFailed);
      }
      var obj := found.value;
      if obj.size != size.value {
        return Err(SizeMismatch);
      }
      obj.MarkAsUploaded();
      var updated := repo.Update(obj, f);
      if updated.Err? {
        return Err(UpdateFailed);
      }
      var _ := repo.DeleteBatchUploadKey(rawOid, f.batchKey);
      return Ok(());
    }
  }

  class ProxyDownloadUseCase {
    const repo: CachingLFSObjectRepository

    constructor (repo: CachingLFSObjectRepository)
      ensures this.repo == repo
    {
      this.repo := repo;
    }

    method Execute(owner: string, name: string, oid: OID, f: Faults) returns (r: Result<Download, Error>)
      modifies repo.backend.redis`entries
      ensures (repo.backend.World(), r) == ProxyDownload(old(repo.backend.World()), owner, name, oid, f)
    {
      var repoIdentifier := NewRepositoryIdentifier(owner + "/" + name);
      if repoIdentifier.Err? {
        return Err(AccessDenied);
      }
      var auth := CheckAuthorization(repo.backend.policies.rows, DOWNLOAD, Some(repoIdentifier.value), oid,
                                     f.policyRead);
      if auth.Err? {
        return Err(auth.error);
      }
      var found := repo.FindByOID(oid, f);
      if found.Err? {
        return Err(if found.error == NotFound then ObjectNotFound else found.error);
      }
      var obj := found.value;
      if !obj.uploaded {
        return Err(NotUploaded);
      }
      var stream := GetBlob(repo.backend.bucket.blobs, obj.storageKey, f.blob);
      if stream.Err? {
        return Err(stream.error);
      }
      return Ok(Download(stream.value, obj.size));
    }
  }
}
