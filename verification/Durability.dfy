// What was uploaded can be downloaded: right away, and after anything that is not another PUT of the
// same object.

module Durability {
  import opened Prelude
  import opened Domain
  import opened CacheKeys
  import opened StorageKeys
  import opened RedisValues
  import opened Stores
  import opened BatchApi
  import opened Authorization
  import opened Service
  import Lifecycle
  import opened LifecycleInvariants
  import opened LifecycleTheorems
  import opened Outcomes
  import opened Ownership
  import Refinement

  type Process = Lifecycle.Process
  type System = Lifecycle.System
  type Event = Lifecycle.Event

  /** The object belongs to the repository, is marked, nowhere recorded as unmarked, and has this content. */
  ghost predicate Served(w: World, oid: OID, repo: Repo, content: seq<bv8>) {
    && oid in w.policies && w.policies[oid] == repo.FullName()
    && Uploaded(w, oid)
    && ObjectKey(oid) in w.blobs && w.blobs[ObjectKey(oid)] == content
    && (MetadataKey(oid) in w.cache ==>
        w.cache[MetadataKey(oid)].MetaV? && w.cache[MetadataKey(oid)].meta.uploaded)
  }

  // ---------- uploading and downloading ----------

  lemma ProxyRepository(repo: Repo)
    ensures NewRepositoryIdentifier(repo.owner + "/" + repo.name) == Ok(repo)
  {
    RepositoryRoundTrip(repo.FullName(), repo);
  }

  /** An upload that meets no fault succeeds exactly for registered objects of the repository, or of
      nobody, and bodies that are long enough; the content is then the body up to the registered size. */
  lemma UploadServes(w: World, repo: Repo, oid: OID, body: seq<bv8>)
    requires WorldInv(w)
    ensures var (w', r) := ProxyUpload(w, repo.owner, repo.name, oid, body, NO_FAULTS);
      && WorldInv(w')
      && (r.Ok? <==> oid in w.rows && w.rows[oid].size <= |body| &&
                       (oid in w.policies ==> w.policies[oid] == repo.FullName()))
      && (r.Ok? && oid in w.policies ==> Served(w', oid, repo, body[..w.rows[oid].size]))
      && w'.policies == w.policies && (oid in w.rows ==> oid in w'.rows && w'.rows[oid].size == w.rows[oid].size)
  {
    hide ObjectKey, RepositoryIdentifier.FullName, NewRepositoryIdentifier, CheckAuthorization, Find, MetadataKey;
    ProxyRepository(repo);
    AuthorizationDecision(w.policies, UPLOAD, Some(repo), oid, Fine);
    LookupFinds(w, oid, NO_FAULTS);
    Refinement.OperationsKeepInvariant(w, Lifecycle.Put(repo.owner, repo.name, oid, body), NO_FAULTS);
  }

  /** A served object is downloaded by its repository. */
  lemma ServedIsDownloaded(w: World, repo: Repo, oid: OID, content: seq<bv8>)
    requires WorldInv(w) && Served(w, oid, repo, content)
    ensures ProxyDownload(w, repo.owner, repo.name, oid, NO_FAULTS).1 == Ok(Download(content, |content|))
  {
    hide ObjectKey, RepositoryIdentifier.FullName, NewRepositoryIdentifier, CheckAuthorization, MetadataKey;
    ProxyRepository(repo);
    AuthorizationDecision(w.policies, DOWNLOAD, Some(repo), oid, Fine);
    LookupsAreNotAhead(w, oid, Fine);
    ServedHasItsSize(w, repo, oid, content);
  }

  /** ... and offered to it in a batch, at any size. */
  lemma ServedIsOffered(w: World, c: CallContext, repo: Repo, oid: OID, content: seq<bv8>, size: nat)
    requires WorldInv(w) && Served(w, oid, repo, content)
    ensures AdvertiseObject(w, c, Some(repo), oid, size, NO_FAULTS).1 ==
            Ok(ResponseObject(oid, size, true, Some(Actions(None, Some(NewAction(c, oid)))), None))
  {
    hide ObjectKey, RepositoryIdentifier.FullName, CheckAuthorization, MetadataKey, NewAction;
    AuthorizationDecision(w.policies, DOWNLOAD, Some(repo), oid, Fine);
    LookupsAreNotAhead(w, oid, Fine);
  }

  lemma ServedHasItsSize(w: World, repo: Repo, oid: OID, content: seq<bv8>)
    requires WorldInv(w) && Served(w, oid, repo, content)
    ensures w.rows[oid].size == |content| && w.rows[oid].storageKey == ObjectKey(oid)
  {
  }

  // ---------- and meanwhile ----------

  /** A process that cannot take the object out of service: if it is about the object, it is no PUT of
      it, is not registering it as new, and holds no copy from before it was marked. */
  predicate Harmless(p: Process, oid: OID) {
    Lifecycle.OidOf(p.req) == oid ==>
      && (p.req.Put? ==> p.next.Done?)
      && !Registering(p, oid)
      && (p.next.FillAfterRead? || p.next.FillAfterInsert? || p.next.FillAfterWrite? ==> p.next.copy.uploaded)
  }

  /** Requests for other objects leave this one alone. */
  lemma OthersLeaveServed(w: World, p: Process, f: Fault, oid: OID, repo: Repo, content: seq<bv8>)
    requires WorldInv(w) && ProcessInv(w, p) && Served(w, oid, repo, content) && Lifecycle.OidOf(p.req) != oid
    ensures Served(Lifecycle.Advance(w, p, f).0, oid, repo, content)
  {
    hide ObjectKey, RepositoryIdentifier.FullName, Column, Lifecycle.Advance, CacheNotAhead;
    Lifecycle.Footprint(w, p, f);
    StepLeavesOtherContent(w, p, f, oid);
    if p.next.SavePolicy? {
      SaveEffect(w, p, f);
    }
    CacheFootprint(w, p, f, oid);
  }

  lemma CacheFootprint(w: World, p: Process, f: Fault, oid: OID)
    requires WorldInv(w) && ProcessInv(w, p) && Lifecycle.OidOf(p.req) != oid
    ensures var cache := Lifecycle.Advance(w, p, f).0.cache; var key := MetadataKey(oid);
      (key in cache <==> key in w.cache) && (key in cache ==> cache[key] == w.cache[key])
  {
    hide Lifecycle.Advance, MetadataKey, BatchUploadKey;
    var o := Lifecycle.OidOf(p.req);
    CacheTarget(w, p, f);
    KeysInjective(Metadata, oid, Metadata, o);
    KeysInjective(Metadata, oid, BatchUpload, o);
    assert Key(Metadata, oid) == MetadataKey(oid) && Key(Metadata, o) == MetadataKey(o);
    assert Key(BatchUpload, o) == BatchUploadKey(o);
  }

  /** The one key a call can write or delete in Redis. */
  lemma CacheTarget(w: World, p: Process, f: Fault)
    requires WorldInv(w) && ProcessInv(w, p)
    ensures var cache := Lifecycle.Advance(w, p, f).0.cache; var o := Lifecycle.OidOf(p.req);
      if p.next.FillAfterRead? || p.next.FillAfterInsert? || p.next.FillAfterWrite? then
        cache == WriteCache(w.cache, MetadataKey(o), MetaV(p.next.copy), f)
      else if p.next.DropBatchKey? then cache == DeleteKey(w.cache, BatchUploadKey(o), f)
      else cache == w.cache
  {
    hide ObjectKey, MetadataKey, BatchUploadKey, CheckAuthorization, ReadCache, FindRow, GetBlob, InsertRow, PutBlob,
         UpdateRow, Column, WriteCache, DeleteKey, CacheNotAhead, HasContent, Lifecycle.AfterFind,
         Lifecycle.AfterAnswer, OutcomeOk;
  }

  /** Reads about the object find it marked. */
  lemma ReadsKeepServed(w: World, p: Process, f: Fault, oid: OID, repo: Repo, content: seq<bv8>)
    requires WorldInv(w) && ProcessInv(w, p) && Served(w, oid, repo, content) && Lifecycle.OidOf(p.req) == oid
    requires Harmless(p, oid)
    requires p.next.ReadPolicy? || p.next.ReadCached? || p.next.ReadRow? || p.next.LoadBlob? || p.next.Done?
    ensures var (w', p') := Lifecycle.Advance(w, p, f); w' == w && Harmless(p', oid)
  {
    hide ObjectKey, MetadataKey, RepositoryIdentifier.FullName, NewRepositoryIdentifier, CheckAuthorization, NewAction,
         GenerateStorageKey, UploadResponse, OutcomeOk, HasContent, Column;
    LookupsAreNotAhead(w, oid, f);
    if p.next.ReadPolicy? && p.req.Register? {
      AuthorizationDecision(w.policies, UPLOAD, Lifecycle.RepositoryOf(p.req), oid, f);
    }
  }

  lemma WritesKeepServed(w: World, p: Process, f: Fault, oid: OID, repo: Repo, content: seq<bv8>)
    requires WorldInv(w) && ProcessInv(w, p) && Served(w, oid, repo, content) && Lifecycle.OidOf(p.req) == oid
    requires Harmless(p, oid)
    requires !(p.next.ReadPolicy? || p.next.ReadCached? || p.next.ReadRow? || p.next.LoadBlob? || p.next.Done?)
    ensures var (w', p') := Lifecycle.Advance(w, p, f); Served(w', oid, repo, content) && Harmless(p', oid)
  {
    hide ObjectKey, RepositoryIdentifier.FullName, NewAction, GenerateStorageKey, CacheNotAhead, MetadataKey,
         BatchUploadKey;
    KeysInjective(Metadata, oid, BatchUpload, oid);
    assert Key(Metadata, oid) == MetadataKey(oid) && Key(BatchUpload, oid) == BatchUploadKey(oid);
  }

  lemma StepKeepsServed(s: System, e: Event, oid: OID, repo: Repo, content: seq<bv8>)
    requires Inv(s) && Served(s.world, oid, repo, content)
    requires forall q :: q in s.procs ==> Harmless(s.procs[q], oid)
    requires e.Arrive? ==> !(e.req.Put? && e.req.oid == oid)
    ensures var s' := Lifecycle.Exec(s, e);
      Served(s'.world, oid, repo, content) && forall q :: q in s'.procs ==> Harmless(s'.procs[q], oid)
  {
    hide ObjectKey, Lifecycle.Advance, RepositoryIdentifier.FullName, WorldInv, ProcessInv;
    match e {
      case Arrive(_, _) =>
      case Step(pid, f) =>
        if pid in s.procs {
          var p := s.procs[pid];
          ServedStep(s.world, p, f, oid, repo, content);
        }
      case Vanish(_) =>
      case Foreign(family, name, v) => KeysInjective(Metadata, oid, family, name);
    }
  }

  lemma ServedStep(w: World, p: Process, f: Fault, oid: OID, repo: Repo, content: seq<bv8>)
    requires WorldInv(w) && ProcessInv(w, p) && Served(w, oid, repo, content) && Harmless(p, oid)
    ensures var (w', p') := Lifecycle.Advance(w, p, f); Served(w', oid, repo, content) && Harmless(p', oid)
  {
    hide Lifecycle.Advance, Served, WorldInv, ProcessInv;
    Lifecycle.Footprint(w, p, f);
    if Lifecycle.OidOf(p.req) != oid {
      OthersLeaveServed(w, p, f, oid, repo, content);
    } else if p.next.ReadPolicy? || p.next.ReadCached? || p.next.ReadRow? || p.next.LoadBlob? || p.next.Done? {
      ReadsKeepServed(w, p, f, oid, repo, content);
    } else {
      WritesKeepServed(w, p, f, oid, repo, content);
    }
  }

  /** No PUT of the object arrives. */
  predicate NoPutArrives(events: seq<Event>, oid: OID) {
    forall i :: 0 <= i < |events| && events[i].Arrive? ==> !(events[i].req.Put? && events[i].req.oid == oid)
  }

  lemma {:induction false} RunKeepsServed(s: System, events: seq<Event>, oid: OID, repo: Repo, content: seq<bv8>)
    requires Inv(s) && Served(s.world, oid, repo, content) && NoPutArrives(events, oid)
    requires forall q :: q in s.procs ==> Harmless(s.procs[q], oid)
    ensures Served(Lifecycle.Run(s, events).world, oid, repo, content)
    decreases |events|
  {
    hide Inv, Lifecycle.Exec, Served, Harmless;
    if events != [] {
      StepKeepsInvariant(s, events[0]);
      StepKeepsServed(s, events[0], oid, repo, content);
      assert forall i :: 0 <= i < |events| - 1 ==> events[1..][i] == events[i + 1];
      RunKeepsServed(Lifecycle.Exec(s, events[0]), events[1..], oid, repo, content);
    }
  }

  /** What was uploaded stays available. From any state of the interleaved service in which the requests under
      way are harmless to the object, a PUT of it by its owner that meets no fault, with a body of at least
      the registered size, succeeds; and after any run of these and further requests, with any faults,
      evictions and writes of other components, in which no PUT of the object arrives, a download by the
      owner that meets no fault returns that body, up to the registered size, and a batch in which the
      owner asks for the object is told where to get it. */
  lemma UploadedStaysAvailable(s: System, repo: Repo, oid: OID, body: seq<bv8>, events: seq<Event>, c: CallContext,
                               size: nat)
    requires Inv(s) && NoPutArrives(events, oid)
    requires forall q :: q in s.procs ==> Harmless(s.procs[q], oid)
    requires oid in s.world.policies && s.world.policies[oid] == repo.FullName()
    requires oid in s.world.rows && s.world.rows[oid].size <= |body|
    ensures 0 <= s.world.rows[oid].size
    ensures var (w1, uploaded) := ProxyUpload(s.world, repo.owner, repo.name, oid, body, NO_FAULTS);
      var w2 := Lifecycle.Run(s.(world := w1), events).world;
      var content := body[..s.world.rows[oid].size];
      var offer := ResponseObject(oid, size, true, Some(Actions(None, Some(NewAction(c, oid)))), None);
      && uploaded.Ok?
      && AdvertiseObject(w2, c, Some(repo), oid, size, NO_FAULTS).1 == Ok(offer)
      && ProxyDownload(w2, repo.owner, repo.name, oid, NO_FAULTS).1 == Ok(Download(content, |content|))
  {
    hide ObjectKey, MetadataKey, RepositoryIdentifier.FullName, ProxyUpload, ProxyDownload, Served, WorldInv,
         AdvertiseObject, NewAction;
    SizesAreNotNegative(s.world, oid);
    UploadServes(s.world, repo, oid, body);
    var w1 := ProxyUpload(s.world, repo.owner, repo.name, oid, body, NO_FAULTS).0;
    var content := body[..s.world.rows[oid].size];
    var s1 := s.(world := w1);
    UploadGrows(s.world, repo, oid, body);
    forall q | q in s.procs ensures ProcessInv(w1, s.procs[q]) && Harmless(s.procs[q], oid) {
      KnowledgeIsStable(s.world, w1, s.procs[q]);
    }
    RunKeepsServed(s1, events, oid, repo, content);
    RunsKeepInvariant(s1, events);
    ServedIsDownloaded(Lifecycle.Run(s1, events).world, repo, oid, content);
    ServedIsOffered(Lifecycle.Run(s1, events).world, c, repo, oid, content, size);
  }

  lemma SizesAreNotNegative(w: World, oid: OID)
    requires WorldInv(w)
    requires oid in w.rows
    ensures 0 <= w.rows[oid].size
  {
  }

  lemma UploadGrows(w: World, repo: Repo, oid: OID, body: seq<bv8>)
    requires WorldInv(w)
    ensures Grows(w, ProxyUpload(w, repo.owner, repo.name, oid, body, NO_FAULTS).0)
  {
    hide WorldInv, ProxyUpload, Grows;
    Refinement.OperationsKeepInvariant(w, Lifecycle.Put(repo.owner, repo.name, oid, body), NO_FAULTS);
  }
}
