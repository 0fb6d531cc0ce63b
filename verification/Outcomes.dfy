// What each operation answers and leaves, as conditions on the stores and on the calls that fail.

module Outcomes {
  import opened Prelude
  import opened Domain
  import opened CacheKeys
  import opened StorageKeys
  import opened RedisValues
  import opened Stores
  import opened BatchApi
  import opened Authorization
  import opened Service
  import opened LifecycleInvariants
  import opened Batch
  import opened Registration

  /** The policy of the object names this repository. */
  predicate Owns(w: World, owner: string, name: string, oid: string) {
    oid in w.policies && w.policies[oid] == owner + "/" + name
  }

  /** The policy of the object names another repository. */
  predicate OwnedByAnother(w: World, owner: string, name: string, oid: string) {
    oid in w.policies && w.policies[oid] != owner + "/" + name
  }

  /** `w` with the object's row marked; nothing else in the table moves. */
  function Marked(rows: Rows, oid: string): Rows
    requires oid in rows
  {
    rows[oid := rows[oid].(uploaded := true)]
  }

  predicate Refused(e: Error) {
    e == AccessDenied || e == AuthorizationFailed
  }

  // ---------- pieces ----------

  /** The two segments of a route are a repository exactly when both are there and neither has a slash. */
  lemma RouteNamesRepository(owner: string, name: string)
    requires '/' !in owner && '/' !in name
    ensures var r := NewRepositoryIdentifier(owner + "/" + name);
      if owner == "" || name == "" then r.Err? else r == Ok(RepositoryIdentifier(owner, name))
  {
    var s := owner + "/" + name;
    if owner != "" && name != "" {
      RepositoryRoundTrip(s, RepositoryIdentifier(owner, name));
    } else if NewRepositoryIdentifier(s).Ok? {
      var r := NewRepositoryIdentifier(s).value;
      RepositoryRoundTrip(s, r);
      SlashIsUnique(owner, name, r.owner, r.name);
    }
  }

  lemma SlashIsUnique(a: string, b: string, c: string, d: string)
    requires '/' !in a && '/' !in c && a + "/" + b == c + "/" + d
    ensures a == c && b == d
  {
    IndexOfPrefix(a, '/', b);
    IndexOfPrefix(c, '/', d);
    assert a + ['/'] + b == c + ['/'] + d;
    assert a == (a + "/" + b)[..|a|] && c == (c + "/" + d)[..|c|];
    assert b == (a + "/" + b)[|a| + 1..] && d == (c + "/" + d)[|c| + 1..];
  }

  /** Who is refused, and how: a repository that the policy does not name, and one that asks to read
      what has no policy. */
  lemma AuthorizationRefusal(policies: Policies, op: Operation, repo: Option<Repo>, oid: OID, f: Fault)
    ensures var r := CheckAuthorization(policies, op, repo, oid, f);
      && (r.Err? ==> Refused(r.error))
      && (repo.None? ==> r == Err(AccessDenied))
      && (repo.Some? && f != Fine ==> r == Err(AuthorizationFailed))
      && (repo.Some? && f == Fine && oid !in policies ==>
          (r.Ok? <==> op == Operation("upload")) && (r.Err? ==> r.error == AccessDenied))
      && (repo.Some? && f == Fine && oid in policies ==>
          (r.Ok? <==> policies[oid] == repo.value.FullName()) &&
          (r.Err? && NewRepositoryIdentifier(policies[oid]).Ok? ==> r.error == AccessDenied))
    ensures var r := CanAccess(policies, repo, oid, f);
      && (repo.None? ==> r == Err(NilRepository))
      && (repo.Some? && f != Fine ==> r == Err(StoreFailure))
      && (repo.Some? && f == Fine && oid !in policies ==> r == Err(PolicyNotFound))
      && (repo.Some? && f == Fine && oid in policies && NewRepositoryIdentifier(policies[oid]).Ok? ==>
          r == Ok(policies[oid] == repo.value.FullName()))
  {
    hide RepositoryIdentifier.FullName, NewRepositoryIdentifier;
    AuthorizationDecision(policies, op, repo, oid, f);
    if oid in policies {
      OnlyFormatErrors(policies[oid]);
      if repo.Some? {
        RepositoryRoundTrip(policies[oid], repo.value);
      }
    }
  }

  /** The lookup is answered: from the cache, or by the table. */
  predicate LookedUp(w: World, oid: string, f: Faults) {
    ReadCache(w.cache, oid, f.cacheRead).Some? || f.rowRead == Fine
  }

  /** What the lookup finds: the row if there is one, perhaps in the state before it was marked. */
  lemma LookupFinds(w: World, oid: OID, f: Faults)
    requires WorldInv(w)
    ensures var (w1, found) := Find(w, oid, f);
      && w1 == w.(cache := w1.cache) && WorldInv(w1)
      && (found.Ok? <==> LookedUp(w, oid, f) && oid in w.rows) && (found.Ok? ==> NotAhead(w.rows, oid, found.value))
      && (found.Err? ==> found.error == if LookedUp(w, oid, f) then NotFound else StoreFailure)
  {
    hide ObjectKey;
    LookupsAreNotAhead(w, oid, f.cacheRead);
    LookupsAreNotAhead(w, oid, f.rowRead);
    if oid in w.rows {
      CacheWriteKeepsAgreement(w.rows, w.cache, oid, w.rows[oid], f.readFill);
    }
  }

  /** What marking leaves, from a copy that is not ahead. */
  lemma MarkingLeaves(w: World, oid: OID, m: Meta, f: Faults)
    requires NotAhead(w.rows, oid, m) && m.oid == oid
    ensures var (w', r) := Update(w, MarkedUploaded(m), f);
      && (r.Ok? <==> f.write == Fine) && (r.Err? ==> r.error == StoreFailure)
      && w'.rows == (if f.write == Lost then w.rows else Marked(w.rows, oid))
      && w'.policies == w.policies && w'.blobs == w.blobs
      && w'.cache == if r.Ok? then WriteCache(w.cache, MetadataKey(oid), MetaV(w'.rows[oid]), f.writeFill) else w.cache
  {
  }

  lemma RowsAreTheirOids(w: World, oid: OID)
    requires WorldInv(w) && oid in w.rows
    ensures w.rows[oid].oid == oid && w.rows[oid].size >= 0
    ensures w.rows[oid].storageKey == "objects/sha256/" + oid[0..2] + "/" + oid[2..4] + "/" + oid
  {
    OIDsAreAccepted(oid);
    assert "objects/" + "sha256" + "/" + oid[0..2] + "/" + oid[2..4] + "/" + oid ==
           "objects/sha256/" + oid[0..2] + "/" + oid[2..4] + "/" + oid;
  }

  // ---------- registering ----------

  lemma RegistrationChangesItsCell(w: World, c: CallContext, repo: Repo, oid: OID, size: nat)
    requires Coherent(w)
    ensures var (w', r) := RegisterObject(w, c, Some(repo), oid, size, DEFAULT_HASH_ALGORITHM, NO_FAULTS);
      && Coherent(w') && OnlyChanges(w, w', oid) && CellOf(w', oid) == Settled(CellOf(w, oid), repo, oid, size)
      && r == SettledAnswer(CellOf(w, oid), c, repo, oid, size)
  {
    hide RegisterObject, Coherent, Settled, SettledAnswer, CellOf;
    TurnEffect(w, c, repo, RequestObject(oid, size), NO_FAULTS);
  }

  lemma RegistrationLeavesBlobs(w: World, c: CallContext, repo: Repo, oid: OID, size: nat)
    ensures RegisterObject(w, c, Some(repo), oid, size, DEFAULT_HASH_ALGORITHM, NO_FAULTS).0.blobs == w.blobs
  {
    hide CheckAuthorization, PlanUpload, Column, ReadCache, FindRow, InsertRow;
  }

  /** Tables that differ in one cell. */
  lemma OneCell(w: World, w': World, oid: string)
    requires OnlyChanges(w, w', oid)
    ensures oid in w'.rows && oid in w.rows && w'.rows[oid] == w.rows[oid] ==> w'.rows == w.rows
    ensures oid !in w'.rows && oid !in w.rows ==> w'.rows == w.rows
    ensures oid in w'.rows ==> w'.rows == w.rows[oid := w'.rows[oid]]
    ensures oid in w'.policies && oid in w.policies && w'.policies[oid] == w.policies[oid] ==> w'.policies == w.policies
    ensures oid !in w'.policies && oid !in w.policies ==> w'.policies == w.policies
    ensures oid in w'.policies ==> w'.policies == w.policies[oid := w'.policies[oid]]
  {
    forall o | o != oid
      ensures (o in w.rows <==> o in w'.rows) && (o in w.policies <==> o in w'.policies)
      ensures (o in w.rows ==> w.rows[o] == w'.rows[o]) && (o in w.policies ==> w.policies[o] == w'.policies[o])
    {
      assert CellOf(w', o) == CellOf(w, o);
    }
  }

  /** Registering one object. A repository the policy does not name is refused; a marked object of
      another size is a conflict, and neither changes anything. Otherwise there is a row afterwards, a
      new one with the size asked for and the storage key of the oid; an object without a policy gets
      the name as its column stores it; and the answer is to send the content, unless the object is
      marked. */
  lemma RegistrationOutcome(w: World, c: CallContext, repo: Repo, oid: OID, size: nat)
    requires Coherent(w)
    ensures var (w', r) := RegisterObject(w, c, Some(repo), oid, size, "sha256", NO_FAULTS);
      var name := repo.owner + "/" + repo.name;
      w'.blobs == w.blobs &&
      if OwnedByAnother(w, repo.owner, repo.name, oid) then
        w'.rows == w.rows && w'.policies == w.policies && r.Err? && Refused(r.error)
      else if Uploaded(w, oid) && w.rows[oid].size != size then
        w'.rows == w.rows && w'.policies == w.policies &&
        r == Ok(ResponseObject(oid, size, false, None, Some(ObjectError(409))))
      else
        && oid in w'.rows && w'.rows == w.rows[oid := w'.rows[oid]]
        && w'.rows[oid] == (if oid in w.rows then w.rows[oid]
                            else Meta(oid, size, "sha256",
                                      "objects/sha256/" + oid[0..2] + "/" + oid[2..4] + "/" + oid, false))
        && w'.policies == (if oid in w.policies || Column(name).None? then w.policies
                           else w.policies[oid := Column(name).value])
        && (r.Ok? <==> oid in w.policies || Column(name).Some?) && (r.Err? ==> r.error == PolicySaveFailed)
        && (r.Ok? ==> r.value ==
                      if Uploaded(w, oid) then ResponseObject(oid, size, true, None, None)
                      else ResponseObject(oid, size, true, Some(Actions(Some(NewAction(c, oid)), None)), None))
  {
    hide RegisterObject, Coherent, Column, NewAction, ObjectKey;
    RegistrationLeavesBlobs(w, c, repo, oid, size);
    RegistrationChangesItsCell(w, c, repo, oid, size);
    var w' := RegisterObject(w, c, Some(repo), oid, size, DEFAULT_HASH_ALGORITHM, NO_FAULTS).0;
    OneCell(w, w', oid);
    if oid !in w.rows && oid in w'.rows {
      CoherentRows(w', oid);
    }
  }

  /** Registering when calls fail. A policy that cannot be read ends the batch; a lookup that is not
      answered and a row that cannot be inserted are a 500, and then no policy is written; a policy
      that is not acknowledged ends the batch after the row is there. A failing cache does not matter. */
  lemma RegistrationFailures(w: World, c: CallContext, repo: Repo, oid: OID, size: nat, f: Faults)
    requires WorldInv(w)
    ensures var (w', r) := RegisterObject(w, c, Some(repo), oid, size, "sha256", f);
      var refused := f.policyRead != Fine || OwnedByAnother(w, repo.owner, repo.name, oid);
      var unknown := !LookedUp(w, oid, f);
      var unsaved := oid !in w.rows && f.write != Fine;
      && (r.Err? ==> if refused then Refused(r.error) else r.error == PolicySaveFailed)
      && (refused ==> r.Err? && w' == w)
      && (!refused && (unknown || unsaved) ==>
          r == Ok(ResponseObject(oid, size, false, None, Some(ObjectError(500)))) && w'.policies == w.policies)
      && (!refused && r.Ok? && r.value.error.Some? && !unknown && !unsaved ==> r.value.error.value.code == 409)
      && ((!refused && !unknown && !unsaved && !Uploaded(w, oid) && oid !in w.policies && f.policyWrite != Fine) ==>
          r == Err(PolicySaveFailed))
  {
    hide CheckAuthorization, Find, NewAction, ObjectKey, WorldInv, LookedUp, UpsertPolicy, Save;
    AuthorizationRefusal(w.policies, UPLOAD, Some(repo), oid, f.policyRead);
    AuthorizationDecision(w.policies, UPLOAD, Some(repo), oid, f.policyRead);
    LookupFinds(w, oid, f);
    ObjectKeyNotEmpty(oid);
    var found := Find(w, oid, f).1;
    assert found.Ok? || found == Err(NotFound) || found == Err(StoreFailure);
    if oid !in w.rows && LookedUp(w, oid, f) {
      SaveFails(Find(w, oid, f).0, FreshRow(oid, size), f);
    }
    if f.policyWrite != Fine {
      UpsertFails(oid, repo, f.policyWrite);
    }
  }

  lemma SaveFails(w: World, m: Meta, f: Faults)
    ensures var (w', r) := Save(w, m, f); w'.policies == w.policies && (r.Ok? <==> f.write == Fine && m.oid !in w.rows)
  {
  }

  lemma UpsertFails(oid: OID, repo: Repo, f: Fault)
    requires f != Fine
    ensures forall w :: UpsertPolicy(w, oid, repo, f).1.Err?
  {
  }

  lemma CoherentRows(w: World, oid: OID)
    requires Coherent(w) && oid in w.rows
    ensures w.rows[oid].storageKey == "objects/sha256/" + oid[0..2] + "/" + oid[2..4] + "/" + oid
  {
    RowsAreTheirOids(w, oid);
  }

  // ---------- storing the content ----------

  /** A PUT, for any owner and name a route can have, and any calls that fail. It is refused unless the
      policy, if any, names the repository; then the object has to be registered and the body to have
      the registered size at least. It succeeds exactly if moreover the calls it needs succeed: a
      failing cache does not matter. It then leaves the body, up to that size, under the object's
      storage key, and the mark in the table; in every other case the row and the blob change only by
      a call that took effect and was reported as failed. */
  lemma ProxyUploadOutcome(w: World, owner: string, name: string, oid: OID, body: seq<bv8>, f: Faults)
    requires WorldInv(w) && '/' !in owner && '/' !in name
    ensures var (w', r) := ProxyUpload(w, owner, name, oid, body, f);
      var admitted := owner != "" && name != "" && f.policyRead == Fine && !OwnedByAnother(w, owner, name, oid);
      var taken := admitted && LookedUp(w, oid, f) && oid in w.rows && w.rows[oid].size <= |body|;
      && (r.Ok? <==> taken && f.blob == Fine && f.write == Fine)
      && (!admitted ==> r.Err? && Refused(r.error))
      && (admitted && !LookedUp(w, oid, f) ==> r == Err(StoreFailure))
      && (admitted && LookedUp(w, oid, f) && oid !in w.rows ==> r == Err(ObjectNotFound))
      && (admitted && LookedUp(w, oid, f) && oid in w.rows && r.Err? ==> r.error == StoreFailure)
      && w'.policies == w.policies
      && (taken ==> 0 <= w.rows[oid].size)
      && w'.blobs == (if taken && f.blob != Lost then
                        w.blobs["objects/sha256/" + oid[0..2] + "/" + oid[2..4] + "/" + oid :=
                                body[..w.rows[oid].size]]
                      else w.blobs)
      && w'.rows == (if taken && f.blob == Fine && f.write != Lost then Marked(w.rows, oid) else w.rows)
      && (r.Ok? && f.writeFill != Lost ==>
          MetadataKey(oid) in w'.cache && w'.cache[MetadataKey(oid)] == MetaV(w'.rows[oid]))
  {
    hide NewRepositoryIdentifier, CheckAuthorization, Find, MetadataKey, Update, WorldInv, LookedUp;
    RouteNamesRepository(owner, name);
    if owner != "" && name != "" {
      var repo := RepositoryIdentifier(owner, name);
      AuthorizationRefusal(w.policies, UPLOAD, Some(repo), oid, f.policyRead);
      LookupFinds(w, oid, f);
      if oid in w.rows && LookedUp(w, oid, f) {
        RowsAreTheirOids(w, oid);
        var (w1, found) := Find(w, oid, f);
        var m := found.value;
        if m.size <= |body| {
          var w2 := w1.(blobs := PutBlob(w1.blobs, m.storageKey, body, m.size, f.blob).0);
          MarkingLeaves(w2, oid, m, f);
        }
      } else {
        assert Find(w, oid, f).1.Err?;
      }
    }
  }

  // ---------- verifying ----------

  /** A verify succeeds exactly for the size that is registered, if the lookup is answered and the update
      acknowledged: a failing cache does not matter. Only then, or if the update took effect
      unacknowledged, is anything marked, and the batch key is dropped. */
  lemma VerifyOutcome(w: World, rawOid: string, rawSize: int, f: Faults)
    requires WorldInv(w)
    ensures var (w', r) := VerifyUpload(w, rawOid, rawSize, f);
      var valid := ValidOID(rawOid) && rawSize >= 0;
      var looked := valid && LookedUp(w, rawOid, f);
      var fits := looked && rawOid in w.rows && w.rows[rawOid].size == rawSize;
      && (r.Ok? <==> fits && f.write == Fine)
      && (r == Err(InvalidOID) <==> !ValidOID(rawOid))
      && (r == Err(InvalidSize) <==> ValidOID(rawOid) && rawSize < 0)
      && (r == Err(FindFailed) <==> valid && !looked)
      && (r == Err(ObjectNotFound) <==> looked && rawOid !in w.rows)
      && (r == Err(SizeMismatch) <==> looked && rawOid in w.rows && w.rows[rawOid].size != rawSize)
      && (r == Err(UpdateFailed) <==> fits && f.write != Fine)
      && w'.policies == w.policies && w'.blobs == w.blobs
      && w'.rows == (if fits && f.write != Lost then Marked(w.rows, rawOid) else w.rows)
      && (r.Ok? && f.batchKey != Lost ==> BatchUploadKey(rawOid) !in w'.cache)
      && (r.Ok? && f.writeFill != Lost ==>
          MetadataKey(rawOid) in w'.cache && w'.cache[MetadataKey(rawOid)] == MetaV(w'.rows[rawOid]))
  {
    hide Find, Update, MetadataKey, BatchUploadKey, WorldInv, LookedUp;
    if ValidOID(rawOid) {
      LookupFinds(w, rawOid, f);
      var (w1, found) := Find(w, rawOid, f);
      if found.Ok? {
        RowsAreTheirOids(w, rawOid);
        MarkingLeaves(w1, rawOid, found.value, f);
        KeysInjective(Metadata, rawOid, BatchUpload, rawOid);
        assert Key(Metadata, rawOid) == MetadataKey(rawOid) && Key(BatchUpload, rawOid) == BatchUploadKey(rawOid);
        var updated := Update(w1, MarkedUploaded(found.value), f).1;
        assert rawSize >= 0 && found.value.size == rawSize && updated.Err? ==>
            VerifyUpload(w, rawOid, rawSize, f).1 == Err(UpdateFailed);
      } else {
        assert found == Err(if LookedUp(w, rawOid, f) then NotFound else StoreFailure);
      }
    }
  }

  // ---------- offering and streaming ----------

  /** Asking for an object in a download batch, with any calls that fail. The answer is Ok exactly for the
      repository the policy names, if that can be read; a lookup that is not answered is a 500; and with
      a coherent cache the object is offered exactly if it is marked, and is a 404 if not. */
  lemma OfferOutcome(w: World, c: CallContext, repo: Repo, oid: OID, size: nat, f: Faults)
    requires WorldInv(w)
    ensures var (w', r) := AdvertiseObject(w, c, Some(repo), oid, size, f);
      && w' == w.(cache := w'.cache)
      && (r.Ok? <==> f.policyRead == Fine && Owns(w, repo.owner, repo.name, oid)) && (r.Err? ==> Refused(r.error))
      && (r.Ok? && !LookedUp(w, oid, f) ==>
          r.value == ResponseObject(oid, size, false, None, Some(ObjectError(500))))
      && (r.Ok? && LookedUp(w, oid, f) ==>
          r.value == DownloadResponse(c, oid, size) ||
          r.value == ResponseObject(oid, size, false, None, Some(ObjectError(404))))
      && (r.Ok? && OffersDownload(r.value) ==> Uploaded(w, oid))
      && (r.Ok? && LookedUp(w, oid, f) && CacheAgrees(w) ==> (OffersDownload(r.value) <==> Uploaded(w, oid)))
  {
    hide CheckAuthorization, Find, NewAction, ObjectKey, WorldInv, CacheAgrees, LookedUp;
    AuthorizationRefusal(w.policies, DOWNLOAD, Some(repo), oid, f.policyRead);
    LookupFinds(w, oid, f);
    if Owns(w, repo.owner, repo.name, oid) {
      PoliciesHaveRows(w, oid);
      assert !LookedUp(w, oid, f) ==> Find(w, oid, f).1 == Err(StoreFailure);
      if CacheAgrees(w) {
        FindIsCurrent(w, oid, f);
      }
    }
  }

  /** What the answer is made of, whatever the stores hold: not found is a 404, any other failure a 500. */
  lemma AnswersToFailures(c: CallContext, oid: OID, size: nat, hashAlgo: string, e: Error)
    ensures AnswerDownload(c, oid, size, Err(e)) ==
            ResponseObject(oid, size, false, None, Some(ObjectError(if e == NotFound then 404 else 500)))
    ensures e != NotFound ==>
              PlanUpload(c, oid, size, hashAlgo, Err(e)) ==
              UploadPlan.Respond(ResponseObject(oid, size, false, None, Some(ObjectError(500))))
    ensures hashAlgo !in {"", "sha256"} ==>
              PlanUpload(c, oid, size, hashAlgo, Err(NotFound)) ==
              UploadPlan.Respond(ResponseObject(oid, size, false, None, Some(ObjectError(400))))
  {
  }

  lemma AskingKeepsTables(w: World, c: CallContext, repo: Repo, oid: OID, size: nat)
    requires Coherent(w)
    ensures var w' := AdvertiseObject(w, c, Some(repo), oid, size, NO_FAULTS).0;
      Coherent(w') && w' == w.(cache := w'.cache)
  {
    hide CheckAuthorization, Find, NewAction, ObjectKey, WorldInv, CacheAgrees;
    FindIsCurrent(w, oid, NO_FAULTS);
  }

  predicate AllOwned(w: World, repo: Repo, objects: seq<RequestObject>) {
    forall i :: 0 <= i < |objects| ==> Owns(w, repo.owner, repo.name, objects[i].oid)
  }

  predicate OfferedIfMarked(w: World, c: CallContext, obj: RequestObject, r: ResponseObject) {
    r == if Uploaded(w, obj.oid) then DownloadResponse(c, obj.oid, obj.size)
         else ResponseObject(obj.oid, obj.size, false, None, Some(ObjectError(404)))
  }

  /** A whole download batch: it is answered exactly if the repository owns every object in it, and
      then offers exactly the marked ones. */
  lemma {:induction false} DownloadBatchOffers(w: World, c: CallContext, repo: Repo, objects: seq<RequestObject>)
    requires Coherent(w) && WellFormed(objects)
    ensures var (w', r) := DownloadAll(w, c, Some(repo), objects, seq(|objects|, _ => NO_FAULTS));
      && w' == w.(cache := w'.cache)
      && (r.Ok? <==> AllOwned(w, repo, objects)) && (r.Err? ==> Refused(r.error))
      && (r.Ok? ==> |r.value| == |objects| &&
                    forall i :: 0 <= i < |objects| ==> OfferedIfMarked(w, c, objects[i], r.value[i]))
    decreases |objects|
  {
    hide Coherent, AdvertiseObject, DownloadResponse, WorldInv, CacheAgrees;
    if objects != [] {
      var obj, rest := objects[0], objects[1..];
      AskingKeepsTables(w, c, repo, obj.oid, obj.size);
      CoherentParts(w);
      OfferOutcome(w, c, repo, obj.oid, obj.size, NO_FAULTS);
      assert LookedUp(w, obj.oid, NO_FAULTS);
      OffersAreResponses(c, obj.oid, obj.size);
      var (w1, first) := AdvertiseObject(w, c, Some(repo), obj.oid, obj.size, NO_FAULTS);
      assert seq(|objects|, _ => NO_FAULTS)[1..] == seq(|rest|, _ => NO_FAULTS);
      assert forall i :: 0 <= i < |rest| ==> rest[i] == objects[i + 1];
      assert AllOwned(w, repo, objects) <==> Owns(w, repo.owner, repo.name, obj.oid) && AllOwned(w1, repo, rest) by {
        assert forall i :: 0 < i < |objects| ==> objects[i] == rest[i - 1];
      }
      if first.Ok? {
        DownloadBatchOffers(w1, c, repo, rest);
        assert forall i :: 0 < i < |objects| ==> objects[i] == rest[i - 1];
      }
    }
  }

  lemma CoherentParts(w: World)
    requires Coherent(w)
    ensures WorldInv(w) && CacheAgrees(w)
  {
  }

  lemma OffersAreResponses(c: CallContext, oid: OID, size: nat)
    ensures OffersDownload(DownloadResponse(c, oid, size))
  {
  }

  lemma PoliciesHaveRows(w: World, oid: string)
    requires WorldInv(w) && oid in w.policies
    ensures oid in w.rows && Column(w.policies[oid]) == Some(w.policies[oid])
  {
  }

  /** Streaming an object, with any calls that fail. With a coherent cache it succeeds exactly for the
      owner, a marked object and content in the bucket, if the calls it needs succeed; that content is
      what is streamed, with the registered size announced. */
  lemma ProxyDownloadOutcome(w: World, owner: string, name: string, oid: OID, f: Faults)
    requires Coherent(w) && '/' !in owner && '/' !in name
    ensures var (w', r) := ProxyDownload(w, owner, name, oid, f);
      var key := "objects/sha256/" + oid[0..2] + "/" + oid[2..4] + "/" + oid;
      var admitted := owner != "" && name != "" && f.policyRead == Fine && Owns(w, owner, name, oid);
      var looked := admitted && LookedUp(w, oid, f);
      && w' == w.(cache := w'.cache)
      && (!admitted ==> r.Err? && Refused(r.error))
      && (admitted && !looked ==> r == Err(StoreFailure))
      && (looked && !Uploaded(w, oid) ==> r == Err(NotUploaded))
      && (looked && Uploaded(w, oid) && !(f.blob == Fine && key in w.blobs) ==> r == Err(StoreFailure))
      && (looked && Uploaded(w, oid) && f.blob == Fine && key in w.blobs ==>
          r == Ok(Download(w.blobs[key], w.rows[oid].size)) && |w.blobs[key]| == w.rows[oid].size)
  {
    hide NewRepositoryIdentifier, CheckAuthorization, Find, CacheAgrees, WorldInv, LookedUp;
    RouteNamesRepository(owner, name);
    if owner != "" && name != "" {
      var repo := RepositoryIdentifier(owner, name);
      AuthorizationRefusal(w.policies, DOWNLOAD, Some(repo), oid, f.policyRead);
      if Owns(w, owner, name, oid) {
        PoliciesHaveRows(w, oid);
        LookupFinds(w, oid, f);
        FindIsCurrent(w, oid, f);
        RowsAreTheirOids(w, oid);
        StoredSize(w, oid);
      }
    }
  }

  /** A policy whose object has no row, which the foreign key rules out, is answered as not found. */
  lemma MissingRowsAreNotFound(w: World, c: CallContext, repo: Repo, oid: OID, body: seq<bv8>, size: nat)
    requires Owns(w, repo.owner, repo.name, oid) && oid !in w.rows && MetadataKey(oid) !in w.cache
    ensures ProxyDownload(w, repo.owner, repo.name, oid, NO_FAULTS) == (w, Err(ObjectNotFound))
    ensures ProxyUpload(w, repo.owner, repo.name, oid, body, NO_FAULTS) == (w, Err(ObjectNotFound))
    ensures VerifyUpload(w, oid, size, NO_FAULTS) == (w, Err(ObjectNotFound))
    ensures AdvertiseObject(w, c, Some(repo), oid, size, NO_FAULTS) ==
            (w, Ok(ResponseObject(oid, size, false, None, Some(ObjectError(404)))))
  {
    hide NewRepositoryIdentifier, CheckAuthorization, MetadataKey;
    RouteNamesRepository(repo.owner, repo.name);
    AuthorizationRefusal(w.policies, DOWNLOAD, Some(repo), oid, Fine);
    AuthorizationRefusal(w.policies, UPLOAD, Some(repo), oid, Fine);
  }

  lemma StoredSize(w: World, oid: OID)
    requires WorldInv(w) && oid in w.rows
    ensures w.rows[oid].storageKey in w.blobs ==> |w.blobs[w.rows[oid].storageKey]| == w.rows[oid].size
  {
  }

  // ---------- validation ----------

  predicate WellFormedObject(obj: RequestObject) {
    ValidOID(obj.oid) && obj.size >= 0
  }

  /** The first object of the request that is not well-formed, and what is wrong with it. */
  predicate FirstProblem(objects: seq<RequestObject>, i: nat, e: Error) {
    && i < |objects| && !WellFormedObject(objects[i])
    && (forall j :: 0 <= j < i ==> WellFormedObject(objects[j]))
    && e == if ValidOID(objects[i].oid) then InvalidSize else InvalidOID
  }

  lemma {:induction false} FirstBadIsFirst(objects: seq<RequestObject>, e: Error)
    ensures FirstBadObject(objects) == Some(e) <==> exists i: nat :: FirstProblem(objects, i, e)
    decreases |objects|
  {
    if objects != [] {
      var rest := objects[1..];
      FirstBadIsFirst(rest, e);
      if FirstBadObject(objects) == Some(e) {
        if !WellFormedObject(objects[0]) {
          assert FirstProblem(objects, 0, e);
        } else {
          var i: nat :| FirstProblem(rest, i, e);
          assert FirstProblem(objects, i + 1, e);
        }
      }
      if exists i: nat :: FirstProblem(objects, i, e) {
        var i: nat :| FirstProblem(objects, i, e);
        if i > 0 {
          assert objects[i] == rest[i - 1] && WellFormedObject(objects[0]);
          forall j | 0 <= j < i - 1 ensures WellFormedObject(rest[j]) { assert rest[j] == objects[j + 1]; }
          assert FirstProblem(rest, i - 1, e);
        }
      }
    }
  }

  /** The loops check each object once more, in the same order, and stop there without an effect. */
  lemma TurnsCheckAgain(w: World, c: CallContext, repo: Option<Repo>, hashAlgo: string, obj: RequestObject, f: Faults)
    requires !WellFormedObject(obj)
    ensures var e: Error := if ValidOID(obj.oid) then InvalidSize else InvalidOID;
      UploadTurn(w, c, repo, hashAlgo, obj, f) == (w, Err(e)) && DownloadTurn(w, c, repo, obj, f) == (w, Err(e))
  {
  }

  /** A request that is not accepted is refused for the first of: its operation, having no objects, its
      first object that is not well-formed, its hash algorithm. */
  lemma ValidateNamesTheProblem(req: BatchRequest)
    ensures var known := req.operation == Operation("upload") || req.operation == Operation("download");
      && (Validate(req) == Err(InvalidOperation) <==> !known)
      && (Validate(req) == Err(NoObjects) <==> known && req.objects == [])
      && (Validate(req) == Err(InvalidOID) <==> known && exists i: nat :: FirstProblem(req.objects, i, InvalidOID))
      && (Validate(req) == Err(InvalidSize) <==> known && exists i: nat :: FirstProblem(req.objects, i, InvalidSize))
      && (Validate(req) == Err(InvalidHashAlgorithm) <==>
          known && req.objects != [] && WellFormed(req.objects) && req.hashAlgo != "" && req.hashAlgo != "sha256")
  {
    ValidateIsExact(req);
    ValidatedObjects(req.objects);
    FirstBadIsFirst(req.objects, InvalidOID);
    FirstBadIsFirst(req.objects, InvalidSize);
    FirstBadIsEither(req.objects);
  }

  lemma {:induction false} FirstBadIsEither(objects: seq<RequestObject>)
    ensures FirstBadObject(objects).Some? ==> FirstBadObject(objects).value in {InvalidOID, InvalidSize}
    decreases |objects|
  {
    if objects != [] {
      FirstBadIsEither(objects[1..]);
    }
  }
}
