// Who owns an object: the policy save is an upsert and no transaction spans the policy read and
// the policy write.

module Ownership {
  import opened Prelude
  import opened Domain
  import opened CacheKeys
  import opened StorageKeys
  import opened RedisValues
  import opened Stores
  import opened BatchApi
  import opened Authorization
  import opened Lifecycle
  import opened LifecycleInvariants

  /** Policies are only added: one that is there stays as it is. */
  ghost predicate OwnersKept(p: Policies, p': Policies) {
    forall o :: o in p ==> o in p' && p'[o] == p[o]
  }

  /** The text a step puts into the policy of its object, if it puts one there. */
  function PolicyWrite(s: System, e: Event): Option<string> {
    if e.Step? && e.fault != Lost && e.pid in s.procs && s.procs[e.pid].next.SavePolicy? &&
       RepositoryOf(s.procs[e.pid].req).Some?
    then Column(RepositoryOf(s.procs[e.pid].req).value.FullName()) else None
  }

  /** A policy write that replaces another repository's name. */
  predicate OverwritesOwner(s: System, e: Event) {
    PolicyWrite(s, e).Some? &&
    var oid := OidOf(s.procs[e.pid].req);
    oid in s.world.policies && s.world.policies[oid] != PolicyWrite(s, e).value
  }

  predicate NoOverwrite(s: System, events: seq<Event>)
    decreases |events|
  {
    events == [] || (!OverwritesOwner(s, events[0]) && NoOverwrite(Exec(s, events[0]), events[1..]))
  }

  lemma StepKeepsOwners(s: System, e: Event)
    requires Inv(s)
    ensures OwnersKept(s.world.policies, Exec(s, e).world.policies) <==> !OverwritesOwner(s, e)
    ensures Exec(s, e).world.policies ==
            if PolicyWrite(s, e).None? then s.world.policies
            else s.world.policies[OidOf(s.procs[e.pid].req) := PolicyWrite(s, e).value]
  {
    hide RepositoryIdentifier.FullName, RepositoryOf, Column;
    if e.Step? && e.pid in s.procs {
      var p := s.procs[e.pid];
      Footprint(s.world, p, e.fault);
      assert ProcessInv(s.world, p);
      if p.next.SavePolicy? {
        SaveEffect(s.world, p, e.fault);
      }
    }
  }

  lemma SaveEffect(w: World, p: Process, f: Fault)
    requires ProcessInv(w, p) && p.next.SavePolicy?
    ensures var repo := RepositoryOf(p.req);
      Advance(w, p, f).0.policies ==
      if f == Lost || repo.None? || Column(repo.value.FullName()).None? then w.policies
      else w.policies[OidOf(p.req) := Column(repo.value.FullName()).value]
  {
    hide RepositoryIdentifier.FullName, Column, RepositoryOf;
  }

  // ---------- one registration of an object at a time ----------

  /** A registration that was told the object is new and has not written its policy yet. */
  predicate Registering(p: Process, oid: string) {
    p.req.Register? && p.req.oid == oid &&
    match p.next
    case ReadCached(isNew) => isNew
    case ReadRow(isNew) => isNew
    case FillAfterRead(isNew, _) => isNew
    case Insert(isNew, _, _) => isNew
    case FillAfterInsert(isNew, _, _) => isNew
    case SavePolicy(_) => true
    case _ => false
  }

  /** Batch objects run one at a time per oid: none reads its policy while another of the same oid
      is between its own policy read and policy write. Sequences of whole requests are a
      special case (module Sequences). */
  ghost predicate OneAtATime(s: System, e: Event) {
    e.Step? && e.pid in s.procs && s.procs[e.pid].next.ReadPolicy? && s.procs[e.pid].req.Register? ==>
      forall q :: q in s.procs && q != e.pid ==> !Registering(s.procs[q], s.procs[e.pid].req.oid)
  }

  ghost predicate Serialised(s: System, events: seq<Event>)
    decreases |events|
  {
    events == [] || (OneAtATime(s, events[0]) && Serialised(Exec(s, events[0]), events[1..]))
  }

  ghost predicate RegistrationsApart(s: System) {
    && (forall p, oid :: p in s.procs && Registering(s.procs[p], oid) ==> oid !in s.world.policies)
    && (forall p, q, oid ::
          p in s.procs && q in s.procs && Registering(s.procs[p], oid) && Registering(s.procs[q], oid) ==> p == q)
  }

  lemma RegisteringStep(w: World, p: Process, f: Fault, oid: string)
    requires Registering(Advance(w, p, f).1, oid)
    ensures Registering(p, oid) || (p.next.ReadPolicy? && p.req.Register? && p.req.oid == oid && oid !in w.policies)
    ensures !p.next.SavePolicy?
  {
    hide RepositoryIdentifier.FullName, NewRepositoryIdentifier;
    if p.next.ReadPolicy? && p.req.Register? {
      AuthorizationDecision(w.policies, UPLOAD, p.req.repository, p.req.oid, f);
    }
  }

  lemma PolicyWritesAreOwn(w: World, p: Process, f: Fault)
    requires WorldInv(w) && ProcessInv(w, p)
    ensures var policies := Advance(w, p, f).0.policies;
      policies == w.policies || (Registering(p, OidOf(p.req)) && policies.Keys == w.policies.Keys + {OidOf(p.req)})
  {
    hide RepositoryIdentifier.FullName, Column, RepositoryOf;
    Footprint(w, p, f);
    if p.next.SavePolicy? {
      SaveEffect(w, p, f);
    }
  }

  lemma StepKeepsApart(s: System, e: Event)
    requires Inv(s) && RegistrationsApart(s) && OneAtATime(s, e)
    ensures RegistrationsApart(Exec(s, e)) && !OverwritesOwner(s, e)
  {
    hide Advance, RepositoryIdentifier.FullName, CheckAuthorization;
    var s' := Exec(s, e);
    if e.Step? && e.pid in s.procs {
      var p, f := s.procs[e.pid], e.fault;
      assert ProcessInv(s.world, p);
      PolicyWritesAreOwn(s.world, p, f);
      Footprint(s.world, p, f);
      forall oid | Registering(s'.procs[e.pid], oid)
        ensures oid !in s.world.policies && forall q :: q in s.procs && q != e.pid ==> !Registering(s.procs[q], oid)
        ensures !p.next.SavePolicy?
      {
        RegisteringStep(s.world, p, f, oid);
      }
      assert p.next.SavePolicy? ==> Registering(p, OidOf(p.req));
    } else if e.Arrive? {
      assert forall q, oid :: q in s'.procs && Registering(s'.procs[q], oid) ==>
        q in s.procs && Registering(s.procs[q], oid);
    }
  }

  lemma {:induction false} SerialisedRunsDoNotOverwrite(s: System, events: seq<Event>)
    requires Inv(s) && RegistrationsApart(s) && Serialised(s, events)
    ensures NoOverwrite(s, events)
    decreases |events|
  {
    if events != [] {
      StepKeepsInvariant(s, events[0]);
      StepKeepsApart(s, events[0]);
      SerialisedRunsDoNotOverwrite(Exec(s, events[0]), events[1..]);
    }
  }

  // ---------- downloads ----------

  /** A download request that was let in, and has not failed since. */
  predicate LetIn(p: Process) {
    (p.req.Advertise? || p.req.Fetch?) && !p.next.ReadPolicy? && !(p.next.Done? && p.next.outcome.Failed?)
  }

  predicate OwnedBy(policies: Policies, oid: string, repo: Option<Repo>) {
    repo.Some? && oid in policies && policies[oid] == repo.value.FullName()
  }

  lemma LettingIn(w: World, p: Process, f: Fault)
    requires LetIn(Advance(w, p, f).1)
    ensures LetIn(p) || (p.next.ReadPolicy? && OwnedBy(w.policies, OidOf(p.req), RepositoryOf(p.req)))
    ensures Advance(w, p, f).1.req == p.req
  {
    hide RepositoryIdentifier.FullName, NewRepositoryIdentifier, RepositoryOf;
    if p.next.ReadPolicy? && !p.req.Verify? {
      AuthorizationDecision(w.policies, DOWNLOAD, RepositoryOf(p.req), p.req.oid, f);
    }
  }

  // ---------- what can happen otherwise ----------

  const NOWHERE := CallContext("", "", "", "")

  function FirstRegistration(oid: OID, repo: Repo): Request {
    Register(NOWHERE, Some(repo), oid, 0, DEFAULT_HASH_ALGORITHM)
  }

  /** One registration from its policy read to its answer, beside a second one that waits. */
  const STEPS_OF_0 :=
    [Step(0, Fine)] + ([Step(0, Fine)] + ([Step(0, Fine)] + ([Step(0, Fine)] + ([Step(0, Fine)] + []))))

  const STEPS_OF_1 := [Step(1, Fine)] + ([Step(1, Fine)] + [])

  const BOTH_READ_THE_POLICY := [Step(0, Fine)] + ([Step(1, Fine)] + [])

  function BothArrive(oid: OID, a: Repo, b: Repo): seq<Event> {
    [Arrive(0, FirstRegistration(oid, a))] + ([Arrive(1, FirstRegistration(oid, b))] + [])
  }

  function Two(w: World, p: Next, q: Next, oid: OID, a: Repo, b: Repo): System {
    System(w, map[0 := Process(FirstRegistration(oid, a), p), 1 := Process(FirstRegistration(oid, b), q)])
  }

  lemma BothToldNew(oid: OID, a: Repo, b: Repo)
    ensures Run(Run(INITIAL, BothArrive(oid, a, b)), BOTH_READ_THE_POLICY) ==
            Two(INITIAL.world, ReadCached(true), ReadCached(true), oid, a, b)
  {
    var w := INITIAL.world;
    var ra, rb := FirstRegistration(oid, a), FirstRegistration(oid, b);
    var s1 := Exec(INITIAL, Arrive(0, ra));
    RunNext(INITIAL, Arrive(0, ra), [Arrive(1, rb)] + []);
    RunNext(s1, Arrive(1, rb), []);
    var s2 := Two(w, ReadPolicy, ReadPolicy, oid, a, b);
    assert Exec(s1, Arrive(1, rb)) == s2;
    RunNext(s2, Step(0, Fine), [Step(1, Fine)] + []);
    AuthorizationDecision(w.policies, UPLOAD, Some(a), oid, Fine);
    AuthorizationDecision(w.policies, UPLOAD, Some(b), oid, Fine);
    var s3 := Two(w, ReadCached(true), ReadPolicy, oid, a, b);
    assert Exec(s2, Step(0, Fine)) == s3;
    RunNext(s3, Step(1, Fine), []);
  }

  function RowOf(oid: OID): Meta {
    Meta(oid, 0, DEFAULT_HASH_ALGORITHM, ObjectKey(oid), false)
  }

  /** The stores when the first registration is through. */
  function Registered(oid: OID, owner: Repo): World {
    World(map[oid := RowOf(oid)], map[oid := owner.FullName()], map[MetadataKey(oid) := MetaV(RowOf(oid))], map[])
  }

  /** The stores after the insert, and after the cache fill. */
  function Inserted(oid: OID): World {
    INITIAL.world.(rows := map[oid := RowOf(oid)])
  }

  function Filled(oid: OID): World {
    Inserted(oid).(cache := map[MetadataKey(oid) := MetaV(RowOf(oid))])
  }

  lemma RegistrationLooksUp(oid: OID, a: Repo)
    ensures var r, w0 := FirstRegistration(oid, a), INITIAL.world;
      && Advance(w0, Process(r, ReadCached(true)), Fine) == (w0, Process(r, ReadRow(true)))
      && Advance(w0, Process(r, ReadRow(true)), Fine) ==
         (w0, Process(r, Insert(true, RowOf(oid), UploadResponse(NOWHERE, oid, 0))))
  {
    hide MetadataKey, ObjectKey, RepositoryIdentifier.FullName;
    ObjectKeyNotEmpty(oid);
  }

  lemma RegistrationWrites(oid: OID, a: Repo)
    requires FitsColumn(a)
    ensures var r, w0, resp := FirstRegistration(oid, a), INITIAL.world, UploadResponse(NOWHERE, oid, 0);
      && Advance(w0, Process(r, Insert(true, RowOf(oid), resp)), Fine) ==
         (Inserted(oid), Process(r, FillAfterInsert(true, RowOf(oid), resp)))
      && Advance(Inserted(oid), Process(r, FillAfterInsert(true, RowOf(oid), resp)), Fine) ==
        (Filled(oid), Process(r, SavePolicy(resp)))
      && Advance(Filled(oid), Process(r, SavePolicy(resp)), Fine) ==
         (Registered(oid, a), Process(r, Done(Answered(resp))))
  {
    hide MetadataKey, ObjectKey, RepositoryIdentifier.FullName;
  }

  lemma StepOf0(w: World, n: Next, w': World, n': Next, q: Next, oid: OID, a: Repo, b: Repo, rest: seq<Event>)
    requires Advance(w, Process(FirstRegistration(oid, a), n), Fine) == (w', Process(FirstRegistration(oid, a), n'))
    ensures Run(Two(w, n, q, oid, a, b), [Step(0, Fine)] + rest) == Run(Two(w', n', q, oid, a, b), rest)
  {
    hide Advance, FirstRegistration;
    RunNext(Two(w, n, q, oid, a, b), Step(0, Fine), rest);
    assert Exec(Two(w, n, q, oid, a, b), Step(0, Fine)) == Two(w', n', q, oid, a, b);
  }

  lemma FirstRunsThrough(oid: OID, a: Repo, b: Repo)
    requires FitsColumn(a)
    ensures Run(Two(INITIAL.world, ReadCached(true), ReadCached(true), oid, a, b), STEPS_OF_0) ==
            Two(Registered(oid, a), Done(Answered(UploadResponse(NOWHERE, oid, 0))), ReadCached(true), oid, a, b)
  {
    hide Advance, RowOf, UploadResponse, FirstRegistration, Registered, Inserted, Filled, Exec, Two;
    var row, resp, q, w0 := RowOf(oid), UploadResponse(NOWHERE, oid, 0), ReadCached(true), INITIAL.world;
    var e := Step(0, Fine);
    RegistrationLooksUp(oid, a);
    RegistrationWrites(oid, a);
    StepOf0(w0, q, w0, ReadRow(true), q, oid, a, b, [e] + ([e] + ([e] + ([e] + []))));
    StepOf0(w0, ReadRow(true), w0, Insert(true, row, resp), q, oid, a, b, [e] + ([e] + ([e] + [])));
    StepOf0(w0, Insert(true, row, resp), Inserted(oid), FillAfterInsert(true, row, resp), q, oid, a, b,
            [e] + ([e] + []));
    StepOf0(Inserted(oid), FillAfterInsert(true, row, resp), Filled(oid), SavePolicy(resp), q, oid, a, b, [e] + []);
    StepOf0(Filled(oid), SavePolicy(resp), Registered(oid, a), Done(Answered(resp)), q, oid, a, b, []);
  }

  lemma SecondRunsThrough(oid: OID, a: Repo, b: Repo, p: Next)
    requires FitsColumn(b)
    ensures Run(Two(Registered(oid, a), p, ReadCached(true), oid, a, b), STEPS_OF_1).world.policies ==
            map[oid := b.FullName()]
  {
    hide MetadataKey, ObjectKey, RepositoryIdentifier.FullName;
    ObjectKeyNotEmpty(oid);
    var w, resp, e := Registered(oid, a), UploadResponse(NOWHERE, oid, 0), Step(1, Fine);
    var s0, s1 := Two(w, p, ReadCached(true), oid, a, b), Two(w, p, SavePolicy(resp), oid, a, b);
    assert Exec(s0, e) == s1;
    RunNext(s0, e, [e] + []);
    RunNext(s1, e, []);
  }

  /** Without that discipline an object can change hands: both repositories are told the object is
      new, the first becomes its owner, and the second policy write replaces it. */
  lemma ConcurrentRegistrationsCanOverwrite(oid: OID, a: Repo, b: Repo)
    requires a != b && FitsColumn(a) && FitsColumn(b)
    ensures var told := Run(Run(INITIAL, BothArrive(oid, a, b)), BOTH_READ_THE_POLICY);
      var mid := Run(told, STEPS_OF_0);
      && mid.world.policies == map[oid := a.FullName()]
      && Run(mid, STEPS_OF_1).world.policies == map[oid := b.FullName()]
      && a.FullName() != b.FullName()
  {
    BothToldNew(oid, a, b);
    FirstRunsThrough(oid, a, b);
    SecondRunsThrough(oid, a, b, Done(Answered(UploadResponse(NOWHERE, oid, 0))));
    RepositoryRoundTrip(a.FullName(), a);
    RepositoryRoundTrip(b.FullName(), b);
  }
}
