// A PUT that was let in before its object had an owner, and stores afterwards.

module OvertakenPut {
  import opened Prelude
  import opened Domain
  import opened CacheKeys
  import opened StorageKeys
  import opened RedisValues
  import opened Stores
  import opened BatchApi
  import opened Authorization
  import opened Lifecycle
  import opened Ownership
  import opened Schedules
  import opened Provenance

  /** A registration of an object, and another repository's PUT of it. */
  datatype Case = Case(oid: OID, owner: Repo, other: Repo, body: seq<bv8>) {
    function Registration(): Request {
      Register(NOWHERE, Some(owner), oid, |body|, DEFAULT_HASH_ALGORITHM)
    }

    function Upload(): Request {
      Put(other.owner, other.name, oid, body)
    }

    function Row(): Meta {
      Meta(oid, |body|, DEFAULT_HASH_ALGORITHM, ObjectKey(oid), false)
    }

    function Answer(): ResponseObject {
      UploadResponse(NOWHERE, oid, |body|)
    }

    /** The stores with the row, with the row cached, and with the policy saved. */
    function WithRow(): World {
      INITIAL.world.(rows := map[oid := Row()])
    }

    function WithCache(): World {
      WithRow().(cache := map[MetadataKey(oid) := MetaV(Row())])
    }

    function WithPolicy(): World {
      WithCache().(policies := map[oid := owner.FullName()])
    }

    function Both(w: World, p: Next, q: Next): System {
      System(w, map[0 := Process(Registration(), p), 1 := Process(Upload(), q)])
    }
  }

  const STEP_0 := Step(0, Fine)
  const STEP_1 := Step(1, Fine)

  /** The registration gets as far as its insert; the PUT asks, finds no policy, and reads the row;
      the registration saves its policy. */
  function Overtaking(c: Case): seq<Event> {
    [Arrive(0, c.Registration())] + ([Arrive(1, c.Upload())] +
    ([STEP_0] + ([STEP_0] + ([STEP_0] + ([STEP_0] +
    ([STEP_1] + ([STEP_1] + ([STEP_1] + ([STEP_1] +
    ([STEP_0] + ([STEP_0] + [])))))))))))
  }

  lemma Step0(c: Case, w: World, n: Next, w': World, n': Next, q: Next, rest: seq<Event>)
    requires Advance(w, Process(c.Registration(), n), Fine) == (w', Process(c.Registration(), n'))
    ensures Run(c.Both(w, n, q), [STEP_0] + rest) == Run(c.Both(w', n', q), rest)
  {
    hide Advance;
    RunNext(c.Both(w, n, q), STEP_0, rest);
    assert Exec(c.Both(w, n, q), STEP_0) == c.Both(w', n', q);
  }

  lemma Step1(c: Case, w: World, p: Next, n: Next, w': World, n': Next, rest: seq<Event>)
    requires Advance(w, Process(c.Upload(), n), Fine) == (w', Process(c.Upload(), n'))
    ensures Run(c.Both(w, p, n), [STEP_1] + rest) == Run(c.Both(w', p, n'), rest)
  {
    hide Advance;
    RunNext(c.Both(w, p, n), STEP_1, rest);
    assert Exec(c.Both(w, p, n), STEP_1) == c.Both(w', p, n');
  }

  lemma RegistrationBegins(c: Case)
    ensures var r, w := c.Registration(), INITIAL.world;
      && Advance(w, Process(r, ReadPolicy), Fine) == (w, Process(r, ReadCached(true)))
      && Advance(w, Process(r, ReadCached(true)), Fine) == (w, Process(r, ReadRow(true)))
      && Advance(w, Process(r, ReadRow(true)), Fine) == (w, Process(r, Insert(true, c.Row(), c.Answer())))
      && Advance(w, Process(r, Insert(true, c.Row(), c.Answer())), Fine) ==
         (c.WithRow(), Process(r, FillAfterInsert(true, c.Row(), c.Answer())))
  {
    hide MetadataKey, ObjectKey, RepositoryIdentifier.FullName;
    ObjectKeyNotEmpty(c.oid);
    AuthorizationDecision(map[], UPLOAD, Some(c.owner), c.oid, Fine);
  }

  lemma RegistrationEnds(c: Case)
    requires FitsColumn(c.owner)
    ensures var r := c.Registration();
      && Advance(c.WithCache(), Process(r, FillAfterInsert(true, c.Row(), c.Answer())), Fine) ==
         (c.WithCache(), Process(r, SavePolicy(c.Answer())))
      && Advance(c.WithCache(), Process(r, SavePolicy(c.Answer())), Fine) ==
         (c.WithPolicy(), Process(r, Done(Answered(c.Answer()))))
  {
    hide MetadataKey, ObjectKey, RepositoryIdentifier.FullName;
    assert map[MetadataKey(c.oid) := MetaV(c.Row())][MetadataKey(c.oid) := MetaV(c.Row())] ==
      map[MetadataKey(c.oid) := MetaV(c.Row())];
  }

  lemma UploadIsLetIn(c: Case)
    ensures RepositoryOf(c.Upload()) == Some(c.other)
    ensures Advance(c.WithRow(), Process(c.Upload(), ReadPolicy), Fine) ==
            (c.WithRow(), Process(c.Upload(), ReadCached(true)))
  {
    hide MetadataKey, ObjectKey, NewRepositoryIdentifier;
    RepositoryRoundTrip(c.other.FullName(), c.other);
    AuthorizationDecision(map[], UPLOAD, Some(c.other), c.oid, Fine);
  }

  lemma UploadReads(c: Case)
    ensures var r, w := c.Upload(), c.WithRow();
      && Advance(w, Process(r, ReadCached(true)), Fine) == (w, Process(r, ReadRow(true)))
      && Advance(w, Process(r, ReadRow(true)), Fine) == (w, Process(r, FillAfterRead(true, c.Row())))
      && Advance(w, Process(r, FillAfterRead(true, c.Row())), Fine) == (c.WithCache(), Process(r, StoreBlob(c.Row())))
  {
    hide MetadataKey, ObjectKey, RepositoryIdentifier.FullName, NewRepositoryIdentifier;
    ObjectKeyNotEmpty(c.oid);
  }

  lemma BothArrived(c: Case, rest: seq<Event>)
    ensures Run(INITIAL, [Arrive(0, c.Registration())] + ([Arrive(1, c.Upload())] + rest)) ==
            Run(c.Both(INITIAL.world, ReadPolicy, ReadPolicy), rest)
  {
    var s1 := Exec(INITIAL, Arrive(0, c.Registration()));
    RunNext(INITIAL, Arrive(0, c.Registration()), [Arrive(1, c.Upload())] + rest);
    RunNext(s1, Arrive(1, c.Upload()), rest);
    assert Exec(s1, Arrive(1, c.Upload())) == c.Both(INITIAL.world, ReadPolicy, ReadPolicy);
  }

  lemma OvertakingLeads(c: Case)
    requires FitsColumn(c.owner)
    ensures Run(INITIAL, Overtaking(c)) == c.Both(c.WithPolicy(), Done(Answered(c.Answer())), StoreBlob(c.Row()))
  {
    hide Advance, Exec, Case.Both, Case.WithRow, Case.WithCache, Case.WithPolicy, Case.Registration, Case.Upload;
    var w0, w1, w2 := INITIAL.world, c.WithRow(), c.WithCache();
    var filled, saving := FillAfterInsert(true, c.Row(), c.Answer()), SavePolicy(c.Answer());
    var last := [STEP_0] + ([STEP_0] + []);
    var puts := [STEP_1] + ([STEP_1] + ([STEP_1] + ([STEP_1] + last)));
    RegistrationBegins(c);
    RegistrationEnds(c);
    UploadIsLetIn(c);
    UploadReads(c);
    BothArrived(c, [STEP_0] + ([STEP_0] + ([STEP_0] + ([STEP_0] + puts))));
    Step0(c, w0, ReadPolicy, w0, ReadCached(true), ReadPolicy, [STEP_0] + ([STEP_0] + ([STEP_0] + puts)));
    Step0(c, w0, ReadCached(true), w0, ReadRow(true), ReadPolicy, [STEP_0] + ([STEP_0] + puts));
    Step0(c, w0, ReadRow(true), w0, Insert(true, c.Row(), c.Answer()), ReadPolicy, [STEP_0] + puts);
    Step0(c, w0, Insert(true, c.Row(), c.Answer()), w1, filled, ReadPolicy, puts);
    Step1(c, w1, filled, ReadPolicy, w1, ReadCached(true), [STEP_1] + ([STEP_1] + ([STEP_1] + last)));
    Step1(c, w1, filled, ReadCached(true), w1, ReadRow(true), [STEP_1] + ([STEP_1] + last));
    Step1(c, w1, filled, ReadRow(true), w1, FillAfterRead(true, c.Row()), [STEP_1] + last);
    Step1(c, w1, filled, FillAfterRead(true, c.Row()), w2, StoreBlob(c.Row()), last);
    Step0(c, w2, filled, w2, saving, StoreBlob(c.Row()), [STEP_0] + []);
    Step0(c, w2, saving, c.WithPolicy(), Done(Answered(c.Answer())), StoreBlob(c.Row()), []);
  }

  /** A repository that never owned an object can decide its content: the PUT is let in while the
      object has no policy, the owner's registration completes, and then the PUT stores. */
  lemma OvertakenPutReplacesContent(c: Case)
    requires FitsColumn(c.owner) && c.owner != c.other
    ensures var events := Overtaking(c) + [STEP_1];
      && Run(INITIAL, Overtaking(c)).world.policies == map[c.oid := c.owner.FullName()]
      && Run(INITIAL, events).world.blobs == map[ObjectKey(c.oid) := c.body]
      && !OwnersStore(events)
  {
    hide Run, Exec, ObjectKey, MetadataKey;
    var events := Overtaking(c) + [STEP_1];
    var j := |Overtaking(c)|;
    var s := c.Both(c.WithPolicy(), Done(Answered(c.Answer())), StoreBlob(c.Row()));
    OvertakingLeads(c);
    assert events[..j] == Overtaking(c) && events[..j + 1] == events;
    UploadIsLetIn(c);
    AtNext(events, j);
    UploadStores(c, s);
    OtherName(c);
    assert StoresContent(events, j, 1, c.oid, c.body);
  }

  lemma UploadStores(c: Case, s: System)
    requires s == c.Both(c.WithPolicy(), Done(Answered(c.Answer())), StoreBlob(c.Row()))
    ensures Exec(s, STEP_1).world.blobs == map[ObjectKey(c.oid) := c.body]
    ensures Deposit(s, STEP_1) == Some(c.body)
  {
    hide ObjectKey, MetadataKey, RepositoryIdentifier.FullName;
    assert c.body[..|c.body|] == c.body;
  }

  lemma OtherName(c: Case)
    requires c.owner != c.other
    ensures c.owner.FullName() != c.other.FullName()
  {
    RepositoryRoundTrip(c.owner.FullName(), c.owner);
    RepositoryRoundTrip(c.owner.FullName(), c.other);
  }
}
