// One object's way through the service, by a client that follows the URLs it is given: register, PUT,
// verify, ask, download.

module Journey {
  import opened Prelude
  import opened Domain
  import opened CacheKeys
  import opened StorageKeys
  import opened Stores
  import opened BatchApi
  import opened Authorization
  import opened Service
  import opened LifecycleInvariants
  import opened Registration
  import opened Outcomes
  import opened Routes
  import Durability
  import Lifecycle
  import Refinement

  /** The PUT and the GET handler: the route's owner and name as they are, and its oid. */
  function PutAt(w: World, url: string, body: seq<bv8>): (World, Result<(), Error>) {
    match RouteOf(url)
    case None => (w, Err(NotFound))
    case Some(route) =>
      if NewOID(route.oid).Err? then (w, Err(InvalidOID))
      else ProxyUpload(w, route.owner, route.name, route.oid, body, NO_FAULTS)
  }

  function GetAt(w: World, url: string): (World, Result<Download, Error>) {
    match RouteOf(url)
    case None => (w, Err(NotFound))
    case Some(route) =>
      if NewOID(route.oid).Err? then (w, Err(InvalidOID))
      else ProxyDownload(w, route.owner, route.name, route.oid, NO_FAULTS)
  }

  /** The batch handler makes the action URLs from the repository it authorizes. */
  ghost predicate CameInAt(c: CallContext, repo: Repo) {
    c.owner == repo.owner && c.repo == repo.name && PlainContext(c)
  }

  /** Every action of an answer, for either operation and with any faults, leads back to the object. */
  lemma AnswersLeadBack(w: World, c: CallContext, repo: Option<Repo>, oid: OID, size: nat, hashAlgo: string, f: Faults)
    requires PlainContext(c)
    ensures var r := RegisterObject(w, c, repo, oid, size, hashAlgo, f).1;
      r.Ok? && r.value.actions.Some? ==>
        r.value.actions.value.upload.Some? && r.value.actions.value.download.None? &&
        LeadsBack(c, oid, r.value.actions.value.upload.value)
    ensures var r := AdvertiseObject(w, c, repo, oid, size, f).1;
      r.Ok? && r.value.actions.Some? ==>
        r.value.actions.value.download.Some? && r.value.actions.value.upload.None? &&
        LeadsBack(c, oid, r.value.actions.value.download.value)
  {
    hide NewAction, LeadsBack, Find, Save, UpsertPolicy, CheckAuthorization, GenerateStorageKey;
    ActionsLeadBack(c, oid);
  }

  /** A PUT at the URL a registration has handed out is let in exactly if the column has stored the
      repository's name as it is, and succeeds exactly if the body has the registered size at least. */
  lemma OfferedUploadIsTaken(w: World, c: CallContext, repo: Repo, oid: OID, size: nat, body: seq<bv8>)
    requires Coherent(w) && CameInAt(c, repo)
    ensures var (w1, r) := RegisterObject(w, c, Some(repo), oid, size, "sha256", NO_FAULTS);
      r.Ok? && r.value.actions.Some? ==>
        && r.value.actions.value.upload.Some? && oid in w1.rows
        && var (w2, put) := PutAt(w1, r.value.actions.value.upload.value.href, body);
        && (put.Ok? <==> FitsColumn(repo) && w1.rows[oid].size <= |body|)
        && (put.Ok? ==> Owns(w2, repo.owner, repo.name, oid) && w2.rows == Marked(w1.rows, oid))
  {
    hide RegisterObject, NewAction, Coherent, Column, ProxyUpload, PlainContext, RouteOf;
    var (w1, r) := RegisterObject(w, c, Some(repo), oid, size, "sha256", NO_FAULTS);
    RegistrationOutcome(w, c, repo, oid, size);
    RegistrationChangesItsCell(w, c, repo, oid, size);
    ActionsLeadBack(c, oid);
    InvariantOf(w1);
    ProxyUploadOutcome(w1, repo.owner, repo.name, oid, body, NO_FAULTS);
    if oid in w.policies {
      InvariantOf(w);
      PoliciesHaveRows(w, oid);
    }
    assert FitsColumn(repo) <==> Column(repo.owner + "/" + repo.name) == Some(repo.owner + "/" + repo.name);
  }

  lemma InvariantOf(w: World)
    requires Coherent(w)
    ensures WorldInv(w)
  {
  }

  /** The whole way. A client whose repository is stored under its name registers an object, puts a body
      of the size it gave at the URL it was handed, verifies, asks for the object and gets it from the
      URL it is handed: each step succeeds, and what it gets is its body. (If the object was already
      registered, at that size.) */
  lemma TransferSucceeds(w: World, c: CallContext, repo: Repo, oid: OID, body: seq<bv8>)
    requires Coherent(w) && CameInAt(c, repo) && FitsColumn(repo)
    requires oid in w.policies ==> w.policies[oid] == repo.FullName()
    requires oid in w.rows ==> !w.rows[oid].uploaded && w.rows[oid].size == |body|
    ensures var (w1, registered) := RegisterObject(w, c, Some(repo), oid, |body|, "sha256", NO_FAULTS);
      && registered.Ok? && registered.value.actions.Some? && registered.value.actions.value.upload.Some?
      && var (w2, put) := PutAt(w1, registered.value.actions.value.upload.value.href, body);
      && put.Ok?
      && var (w3, verified) := VerifyUpload(w2, oid, |body|, NO_FAULTS);
      && verified.Ok?
      && var (w4, offer) := AdvertiseObject(w3, c, Some(repo), oid, |body|, NO_FAULTS);
      && offer.Ok? && offer.value.error.None? && OffersDownload(offer.value)
      && GetAt(w4, offer.value.actions.value.download.value.href).1 == Ok(Download(body, |body|))
  {
    hide RegisterObject, NewAction, Coherent, Column, ProxyUpload, PlainContext, RouteOf, VerifyUpload, WorldInv,
         AdvertiseObject, ProxyDownload, ObjectKey, MetadataKey, BatchUploadKey;
    var (w1, registered) := RegisterObject(w, c, Some(repo), oid, |body|, "sha256", NO_FAULTS);
    RegistrationOutcome(w, c, repo, oid, |body|);
    RegistrationChangesItsCell(w, c, repo, oid, |body|);
    InvariantOf(w1);
    ActionsLeadBack(c, oid);
    OfferedUploadIsTaken(w, c, repo, oid, |body|, body);
    var w2 := PutAt(w1, registered.value.actions.value.upload.value.href, body).0;
    assert w2 == ProxyUpload(w1, repo.owner, repo.name, oid, body, NO_FAULTS).0;
    StoredIsServed(w1, repo, oid, body);
    ServedThroughVerify(w2, repo, oid, body);
    var w3 := VerifyUpload(w2, oid, |body|, NO_FAULTS).0;
    Durability.ServedIsOffered(w3, c, repo, oid, body, |body|);
    ServedWhileAsking(w3, c, repo, oid, body);
    var w4 := AdvertiseObject(w3, c, Some(repo), oid, |body|, NO_FAULTS).0;
    Durability.ServedIsDownloaded(w4, repo, oid, body);
  }

  lemma StoredIsServed(w: World, repo: Repo, oid: OID, body: seq<bv8>)
    requires WorldInv(w) && Owns(w, repo.owner, repo.name, oid) && oid in w.rows && w.rows[oid].size == |body|
    ensures var w' := ProxyUpload(w, repo.owner, repo.name, oid, body, NO_FAULTS).0;
      WorldInv(w') && Durability.Served(w', oid, repo, body)
  {
    hide WorldInv, ProxyUpload, Durability.Served;
    Durability.UploadServes(w, repo, oid, body);
    assert body[..|body|] == body;
  }

  lemma ServedThroughVerify(w: World, repo: Repo, oid: OID, content: seq<bv8>)
    requires WorldInv(w) && Durability.Served(w, oid, repo, content)
    ensures var (w', r) := VerifyUpload(w, oid, |content|, NO_FAULTS);
      r.Ok? && WorldInv(w') && Durability.Served(w', oid, repo, content)
  {
    hide WorldInv, VerifyUpload, ObjectKey, MetadataKey, BatchUploadKey, RepositoryIdentifier.FullName;
    Durability.ServedHasItsSize(w, repo, oid, content);
    VerifyOutcome(w, oid, |content|, NO_FAULTS);
    Refinement.OperationsKeepInvariant(w, Lifecycle.Verify(oid, |content|), NO_FAULTS);
  }

  lemma ServedWhileAsking(w: World, c: CallContext, repo: Repo, oid: OID, content: seq<bv8>)
    requires WorldInv(w) && Durability.Served(w, oid, repo, content)
    ensures var w' := AdvertiseObject(w, c, Some(repo), oid, |content|, NO_FAULTS).0;
      WorldInv(w') && Durability.Served(w', oid, repo, content)
  {
    hide WorldInv, CheckAuthorization, NewAction, ObjectKey, MetadataKey, RepositoryIdentifier.FullName, Reconstruct;
    LookupFinds(w, oid, NO_FAULTS);
    LookupsAreNotAhead(w, oid, Fine);
  }
}
