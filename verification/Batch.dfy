// Batch requests as folds over the stores, and what holds of a whole batch.

module Batch {
  import opened Prelude
  import opened Domain
  import opened StorageKeys
  import opened Stores
  import opened BatchApi
  import opened Authorization
  import opened Service
  import Lifecycle
  import opened LifecycleInvariants
  import Refinement

  type Answers = Result<seq<ResponseObject>, Error>

  /** One turn of the upload loop, from the raw request object. */
  function UploadTurn(w: World, c: CallContext, repo: Option<Repo>, hashAlgo: string, obj: RequestObject, f: Faults)
    : (World, Result<ResponseObject, Error>)
  {
    if NewOID(obj.oid).Err? then (w, Err(InvalidOID))
    else if NewSize(obj.size).Err? then (w, Err(InvalidSize))
    else RegisterObject(w, c, repo, obj.oid, obj.size, hashAlgo, f)
  }

  function DownloadTurn(w: World, c: CallContext, repo: Option<Repo>, obj: RequestObject, f: Faults)
    : (World, Result<ResponseObject, Error>)
  {
    if NewOID(obj.oid).Err? then (w, Err(InvalidOID))
    else if NewSize(obj.size).Err? then (w, Err(InvalidSize))
    else AdvertiseObject(w, c, repo, obj.oid, obj.size, f)
  }

  /** The upload loop: objects in order, ended by the first error. */
  function UploadAll(w: World, c: CallContext, repo: Option<Repo>, hashAlgo: string, objects: seq<RequestObject>,
                     fs: seq<Faults>)
    : (World, Answers)
    requires |fs| == |objects|
    decreases |objects|
  {
    if objects == [] then (w, Ok([]))
    else
      var (w1, first) := UploadTurn(w, c, repo, hashAlgo, objects[0], fs[0]);
      match first
      case Err(e) => (w1, Err(e))
      case Ok(resp) =>
        var (w2, rest) := UploadAll(w1, c, repo, hashAlgo, objects[1..], fs[1..]);
        (w2, if rest.Ok? then Ok([resp] + rest.value) else rest)
  }

  function DownloadAll(w: World, c: CallContext, repo: Option<Repo>, objects: seq<RequestObject>, fs: seq<Faults>)
    : (World, Answers)
    requires |fs| == |objects|
    decreases |objects|
  {
    if objects == [] then (w, Ok([]))
    else
      var (w1, first) := DownloadTurn(w, c, repo, objects[0], fs[0]);
      match first
      case Err(e) => (w1, Err(e))
      case Ok(resp) =>
        var (w2, rest) := DownloadAll(w1, c, repo, objects[1..], fs[1..]);
        (w2, if rest.Ok? then Ok([resp] + rest.value) else rest)
  }

  function Respond(hashAlgo: string, answers: Answers): Result<BatchResponse, Error> {
    if answers.Ok? then Ok(BatchResponse(DEFAULT_TRANSFER_TYPE, answers.value, hashAlgo)) else Err(answers.error)
  }

  function BatchUpload(w: World, c: CallContext, req: BatchRequest, fs: seq<Faults>)
    : (World, Result<BatchResponse, Error>)
    requires |fs| == |req.objects|
  {
    if Validate(req).Err? then (w, Err(Validate(req).error))
    else if req.operation != UPLOAD then (w, Err(InvalidOperation))
    else
      var (w', answers) := UploadAll(w, c, req.repository, EffectiveHashAlgo(req), req.objects, fs);
      (w', Respond(EffectiveHashAlgo(req), answers))
  }

  function BatchDownload(w: World, c: CallContext, req: BatchRequest, fs: seq<Faults>)
    : (World, Result<BatchResponse, Error>)
    requires |fs| == |req.objects|
  {
    if Validate(req).Err? then (w, Err(Validate(req).error))
    else if req.operation != DOWNLOAD then (w, Err(InvalidOperation))
    else
      var (w', answers) := DownloadAll(w, c, req.repository, req.objects, fs);
      (w', Respond(EffectiveHashAlgo(req), answers))
  }

  // ---------- batch as fold ----------

  /** Running xs + ys is running xs and then, if xs succeeded, ys from where xs ended, with the
      answers concatenated; if xs fails, ys has no effect and no answer. */
  lemma {:induction false} UploadAllAppend(w: World, c: CallContext, repo: Option<Repo>, h: string,
                                           xs: seq<RequestObject>, ys: seq<RequestObject>,
                                           fs: seq<Faults>, gs: seq<Faults>)
    requires |fs| == |xs| && |gs| == |ys|
    ensures var (w1, a) := UploadAll(w, c, repo, h, xs, fs); var (w2, b) := UploadAll(w1, c, repo, h, ys, gs);
      UploadAll(w, c, repo, h, xs + ys, fs + gs) ==
      if a.Err? then (w1, a) else (w2, if b.Ok? then Ok(a.value + b.value) else b)
    decreases |xs|
  {
    hide UploadTurn;
    if xs == [] {
      assert xs + ys == ys && fs + gs == gs;
      var b := UploadAll(w, c, repo, h, ys, gs).1;
      assert b.Ok? ==> [] + b.value == b.value;
    } else {
      assert (xs + ys)[1..] == xs[1..] + ys && (fs + gs)[1..] == fs[1..] + gs;
      var (w1, first) := UploadTurn(w, c, repo, h, xs[0], fs[0]);
      if first.Ok? {
        UploadAllAppend(w1, c, repo, h, xs[1..], ys, fs[1..], gs);
        var a := UploadAll(w1, c, repo, h, xs[1..], fs[1..]).1;
        var b := UploadAll(w1, c, repo, h, xs[1..] + ys, fs[1..] + gs).1;
        if b.Ok? {
          assert [first.value] + (a.value + b.value[|a.value|..]) == ([first.value] + a.value) + b.value[|a.value|..];
        }
      }
    }
  }

  lemma {:induction false} DownloadAllAppend(w: World, c: CallContext, repo: Option<Repo>,
                                             xs: seq<RequestObject>, ys: seq<RequestObject>,
                                             fs: seq<Faults>, gs: seq<Faults>)
    requires |fs| == |xs| && |gs| == |ys|
    ensures var (w1, a) := DownloadAll(w, c, repo, xs, fs); var (w2, b) := DownloadAll(w1, c, repo, ys, gs);
      DownloadAll(w, c, repo, xs + ys, fs + gs) ==
      if a.Err? then (w1, a) else (w2, if b.Ok? then Ok(a.value + b.value) else b)
    decreases |xs|
  {
    hide DownloadTurn;
    if xs == [] {
      assert xs + ys == ys && fs + gs == gs;
      var b := DownloadAll(w, c, repo, ys, gs).1;
      assert b.Ok? ==> [] + b.value == b.value;
    } else {
      assert (xs + ys)[1..] == xs[1..] + ys && (fs + gs)[1..] == fs[1..] + gs;
      var (w1, first) := DownloadTurn(w, c, repo, xs[0], fs[0]);
      if first.Ok? {
        DownloadAllAppend(w1, c, repo, xs[1..], ys, fs[1..], gs);
        var a := DownloadAll(w1, c, repo, xs[1..], fs[1..]).1;
        var b := DownloadAll(w1, c, repo, xs[1..] + ys, fs[1..] + gs).1;
        if b.Ok? {
          assert [first.value] + (a.value + b.value[|a.value|..]) == ([first.value] + a.value) + b.value[|a.value|..];
        }
      }
    }
  }

  /** A failed batch failed at one object: the objects before it keep exactly the effects of running
      them alone, and what is left is that plus the effects of the failing object. */
  lemma {:induction false} FailureKeepsPrefix(w: World, c: CallContext, repo: Option<Repo>, h: string,
                                              objects: seq<RequestObject>, fs: seq<Faults>)
    returns (k: nat)
    requires |fs| == |objects| && UploadAll(w, c, repo, h, objects, fs).1.Err?
    ensures k < |objects|
    ensures var (before, done) := UploadAll(w, c, repo, h, objects[..k], fs[..k]);
      && done.Ok? && |done.value| == k
      && var (after, failed) := UploadTurn(before, c, repo, h, objects[k], fs[k]);
         failed.Err? && UploadAll(w, c, repo, h, objects, fs) == (after, Err(failed.error))
    decreases |objects|
  {
    hide UploadTurn;
    var (w1, first) := UploadTurn(w, c, repo, h, objects[0], fs[0]);
    if first.Err? {
      k := 0;
    } else {
      var j := FailureKeepsPrefix(w1, c, repo, h, objects[1..], fs[1..]);
      k := j + 1;
      assert objects[..k][1..] == objects[1..][..j] && fs[..k][1..] == fs[1..][..j];
    }
  }

  /** What comes after the failing object has no effect and no say: any other tail, or none, gives
      the same stores and the same error. */
  lemma LaterObjectsHaveNoEffect(w: World, c: CallContext, repo: Option<Repo>, h: string, objects: seq<RequestObject>,
                                 fs: seq<Faults>,
                                 later: seq<RequestObject>, gs: seq<Faults>) returns (k: nat)
    requires |fs| == |objects| && |gs| == |later| && UploadAll(w, c, repo, h, objects, fs).1.Err?
    ensures k < |objects|
    ensures UploadAll(w, c, repo, h, objects[..k], fs[..k]).1.Ok?
    ensures UploadAll(w, c, repo, h, objects[..k + 1] + later, fs[..k + 1] + gs) ==
            UploadAll(w, c, repo, h, objects, fs)
  {
    hide UploadTurn;
    k := FailureKeepsPrefix(w, c, repo, h, objects, fs);
    var (before, _) := UploadAll(w, c, repo, h, objects[..k], fs[..k]);
    UploadAllAppend(w, c, repo, h, objects[..k], [objects[k]], fs[..k], [fs[k]]);
    assert objects[..k] + [objects[k]] == objects[..k + 1] && fs[..k] + [fs[k]] == fs[..k + 1];
    assert UploadAll(before, c, repo, h, [objects[k]], [fs[k]]).1.Err?;
    UploadAllAppend(w, c, repo, h, objects[..k + 1], later, fs[..k + 1], gs);
    UploadAllAppend(w, c, repo, h, objects[..k + 1], objects[k + 1..], fs[..k + 1], fs[k + 1..]);
    assert objects[..k + 1] + objects[k + 1..] == objects && fs[..k + 1] + fs[k + 1..] == fs;
  }

  // ---------- validated requests ----------

  predicate WellFormed(objects: seq<RequestObject>) {
    forall i :: 0 <= i < |objects| ==> ValidOID(objects[i].oid) && objects[i].size >= 0
  }

  lemma {:induction false} ValidatedObjects(objects: seq<RequestObject>)
    ensures FirstBadObject(objects).None? <==> WellFormed(objects)
    decreases |objects|
  {
    if objects != [] {
      ValidatedObjects(objects[1..]);
      assert WellFormed(objects) <==> (ValidOID(objects[0].oid) && objects[0].size >= 0 &&
                                       WellFormed(objects[1..])) by {
        assert forall i :: 0 < i < |objects| ==> objects[i] == objects[1..][i - 1];
        assert forall i :: 0 <= i < |objects[1..]| ==> objects[1..][i] == objects[i + 1];
      }
    }
  }

  /** Validate accepts exactly the requests the protocol allows. */
  lemma ValidateIsExact(req: BatchRequest)
    ensures Validate(req).Ok? <==>
      && (req.operation == UPLOAD || req.operation == DOWNLOAD)
      && req.objects != [] && WellFormed(req.objects)
      && (req.hashAlgo == "" || req.hashAlgo == "sha256")
    ensures Validate(req).Ok? ==> EffectiveHashAlgo(req) == DEFAULT_HASH_ALGORITHM
  {
    ValidatedObjects(req.objects);
  }

  /** An answer to one object: the object's own oid and size, and either an error or a go-ahead. */
  predicate AnswersObject(obj: RequestObject, r: ResponseObject) {
    && r.oid == obj.oid && r.size == obj.size
    && (r.error.Some? <==> !r.authenticated)
    && (r.error.Some? ==> r.actions.None?)
  }

  predicate UploadAnswer(obj: RequestObject, r: ResponseObject) {
    && AnswersObject(obj, r) && !OffersDownload(r)
    && (r.error.Some? ==> r.error.value.code == CONFLICT || r.error.value.code == INTERNAL_ERROR)
  }

  predicate DownloadAnswer(obj: RequestObject, r: ResponseObject) {
    && AnswersObject(obj, r) && (r.error.None? <==> OffersDownload(r))
    && (r.actions.Some? ==> r.actions.value.upload.None?)
    && (r.error.Some? ==> r.error.value.code == MISSING || r.error.value.code == INTERNAL_ERROR)
  }

  predicate UploadAnswers(objects: seq<RequestObject>, answers: seq<ResponseObject>) {
    |answers| == |objects| && forall i :: 0 <= i < |objects| ==> UploadAnswer(objects[i], answers[i])
  }

  predicate DownloadAnswers(objects: seq<RequestObject>, answers: seq<ResponseObject>) {
    |answers| == |objects| && forall i :: 0 <= i < |objects| ==> DownloadAnswer(objects[i], answers[i])
  }

  predicate DownloadAborts(e: Error) { e == AccessDenied || e == AuthorizationFailed }

  predicate UploadAborts(e: Error) { DownloadAborts(e) || e == PolicySaveFailed }

  lemma TurnAnswersItsObject(w: World, c: CallContext, repo: Option<Repo>, obj: RequestObject, f: Faults)
    requires ValidOID(obj.oid) && obj.size >= 0
    ensures var (_, r) := UploadTurn(w, c, repo, DEFAULT_HASH_ALGORITHM, obj, f);
      if r.Ok? then UploadAnswer(obj, r.value) else UploadAborts(r.error)
    ensures var (_, r) := DownloadTurn(w, c, repo, obj, f);
      if r.Ok? then DownloadAnswer(obj, r.value) else DownloadAborts(r.error)
  {
    hide ObjectKey, Find, UpsertPolicy, NewAction, Authorize, Save;
    ObjectKeyNotEmpty(obj.oid);
  }

  /** A validated request is answered in full and in order: no oid, size, hash or storage-key check
      fails inside; a successful response has one entry per request object, in order, each either an
      error or a go-ahead and never an action of the other operation; and a batch fails only on a
      denied access or a store failure. */
  lemma {:induction false} AnsweredInOrder(w: World, c: CallContext, repo: Option<Repo>, objects: seq<RequestObject>,
                                           fs: seq<Faults>)
    requires |fs| == |objects| && WellFormed(objects)
    ensures var (_, up) := UploadAll(w, c, repo, DEFAULT_HASH_ALGORITHM, objects, fs);
      if up.Err? then UploadAborts(up.error) else UploadAnswers(objects, up.value)
    ensures var (_, down) := DownloadAll(w, c, repo, objects, fs);
      if down.Err? then DownloadAborts(down.error) else DownloadAnswers(objects, down.value)
    decreases |objects|
  {
    hide UploadTurn, DownloadTurn, UploadAnswer, DownloadAnswer;
    if objects != [] {
      TurnAnswersItsObject(w, c, repo, objects[0], fs[0]);
      assert forall i :: 0 <= i < |objects[1..]| ==> objects[1..][i] == objects[i + 1];
      AnsweredInOrder(UploadTurn(w, c, repo, DEFAULT_HASH_ALGORITHM, objects[0], fs[0]).0, c, repo, objects[1..],
                      fs[1..]);
      AnsweredInOrder(DownloadTurn(w, c, repo, objects[0], fs[0]).0, c, repo, objects[1..], fs[1..]);
    }
  }

  /** The same for whole requests: what Validate rejects, and what the other operation's handler
      gets, has no effect; the rest is answered in full and in order. */
  lemma ValidatedUploadsAreAnswered(w: World, c: CallContext, req: BatchRequest, fs: seq<Faults>)
    requires |fs| == |req.objects|
    ensures var (w', r) := BatchUpload(w, c, req, fs);
      if Validate(req).Ok? && req.operation == UPLOAD then
        if r.Err? then UploadAborts(r.error)
        else r.value.transfer == "basic" && r.value.hashAlgo == "sha256" && UploadAnswers(req.objects, r.value.objects)
      else w' == w && r == Err(if Validate(req).Err? then Validate(req).error else InvalidOperation)
  {
    hide UploadAnswers, UploadAll, Validate;
    ValidateIsExact(req);
    if Validate(req).Ok? {
      AnsweredInOrder(w, c, req.repository, req.objects, fs);
      var answers := UploadAll(w, c, req.repository, DEFAULT_HASH_ALGORITHM, req.objects, fs).1;
      assert req.operation == UPLOAD ==> BatchUpload(w, c, req, fs).1 == Respond(DEFAULT_HASH_ALGORITHM, answers);
    }
  }

  lemma ValidatedDownloadsAreAnswered(w: World, c: CallContext, req: BatchRequest, fs: seq<Faults>)
    requires |fs| == |req.objects|
    ensures var (w', r) := BatchDownload(w, c, req, fs);
      if Validate(req).Ok? && req.operation == DOWNLOAD then
        if r.Err? then
          DownloadAborts(r.error)
        else
          r.value.transfer == "basic" && r.value.hashAlgo == "sha256" && DownloadAnswers(req.objects, r.value.objects)
      else w' == w && r == Err(if Validate(req).Err? then Validate(req).error else InvalidOperation)
  {
    hide DownloadAnswers, DownloadAll, Validate;
    ValidateIsExact(req);
    if Validate(req).Ok? {
      AnsweredInOrder(w, c, req.repository, req.objects, fs);
      var answers := DownloadAll(w, c, req.repository, req.objects, fs).1;
      assert req.operation == DOWNLOAD ==> BatchDownload(w, c, req, fs).1 == Respond(DEFAULT_HASH_ALGORITHM, answers);
    }
  }

  lemma TurnsKeepInvariant(w: World, c: CallContext, repo: Option<Repo>, h: string, obj: RequestObject, f: Faults)
    requires WorldInv(w)
    ensures var w' := UploadTurn(w, c, repo, h, obj, f).0; WorldInv(w') && Grows(w, w')
    ensures var w' := DownloadTurn(w, c, repo, obj, f).0; WorldInv(w') && Grows(w, w')
  {
    hide WorldInv, RegisterObject, AdvertiseObject;
    if ValidOID(obj.oid) && obj.size >= 0 {
      Refinement.OperationsKeepInvariant(w, Lifecycle.Register(c, repo, obj.oid, obj.size, h), f);
      Refinement.OperationsKeepInvariant(w, Lifecycle.Advertise(c, repo, obj.oid, obj.size), f);
    }
  }

  /** Batches keep the invariants of the interleaved service. */
  lemma {:induction false} BatchesKeepInvariant(w: World, c: CallContext, repo: Option<Repo>, h: string,
                                                objects: seq<RequestObject>, fs: seq<Faults>)
    requires |fs| == |objects| && WorldInv(w)
    ensures var w' := UploadAll(w, c, repo, h, objects, fs).0; WorldInv(w') && Grows(w, w')
    ensures var w' := DownloadAll(w, c, repo, objects, fs).0; WorldInv(w') && Grows(w, w')
    decreases |objects|
  {
    hide WorldInv, UploadTurn, DownloadTurn;
    if objects != [] {
      TurnsKeepInvariant(w, c, repo, h, objects[0], fs[0]);
      BatchesKeepInvariant(UploadTurn(w, c, repo, h, objects[0], fs[0]).0, c, repo, h, objects[1..], fs[1..]);
      BatchesKeepInvariant(DownloadTurn(w, c, repo, objects[0], fs[0]).0, c, repo, h, objects[1..], fs[1..]);
    }
  }
}
