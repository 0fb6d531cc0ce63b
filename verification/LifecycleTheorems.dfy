// What every run of the interleaved service guarantees.

module LifecycleTheorems {
  import opened Prelude
  import opened Domain
  import opened CacheKeys
  import opened StorageKeys
  import opened Stores
  import opened Lifecycle
  import opened LifecycleInvariants

  /** The copy of a record a process holds as it came out of the cache or the table. */
  function HeldCopy(n: Next): Option<Meta> {
    match n
    case FillAfterRead(_, m) => Some(m)
    case FillAfterInsert(_, m, _) => Some(m)
    case StoreBlob(m) => Some(m)
    case FillAfterWrite(m) => Some(m)
    case LoadBlob(m) => Some(m)
    case _ => None
  }

  /** Cache never ahead: in every reachable state, each cached record and each copy in flight has a
      row it agrees with on oid, size, hash algorithm and storage key, and says `uploaded` only if
      the row does. */
  lemma CacheNeverAhead(events: seq<Event>, oid: string, pid: nat)
    ensures var s := Run(INITIAL, events);
      && (MetadataKey(oid) in s.world.cache ==>
          var v := s.world.cache[MetadataKey(oid)]; v.MetaV? && NotAhead(s.world.rows, oid, v.meta))
      && (pid in s.procs && HeldCopy(s.procs[pid].next).Some? ==>
          NotAhead(s.world.rows, OidOf(s.procs[pid].req), HeldCopy(s.procs[pid].next).value))
  {
    ReachableInvariant(events);
  }

  /** Monotone records, for one row and two moments of a run. */
  lemma RecordsAreMonotone(xs: seq<Event>, ys: seq<Event>, oid: string)
    requires oid in Run(INITIAL, xs).world.rows
    ensures var before, after := Run(INITIAL, xs).world.rows, Run(INITIAL, xs + ys).world.rows;
      && oid in after
      && SameIdentity(before[oid], after[oid])
      && (before[oid].uploaded ==> after[oid].uploaded)
  {
    ReachableInvariant(xs);
    RunAppend(INITIAL, xs, ys);
    RunsKeepInvariant(Run(INITIAL, xs), ys);
  }

  /** Answers are the truth: whatever the cache holds, an object is offered or streamed only once its
      row is marked, the announced length is the registered size and the stored length; a PUT or
      verify that reports success leaves the row marked, and a verify reports success only for the
      registered size and a mismatch only for another one; a registration is told to go ahead only
      with a row, that there is nothing to send only for a marked row of that size, and of a conflict
      only for a marked row of another size. All of it stays true from then on. */
  lemma OutcomesAreSound(xs: seq<Event>, ys: seq<Event>, pid: nat)
    requires pid in Run(INITIAL, xs).procs && Run(INITIAL, xs).procs[pid].next.Done?
    ensures var p := Run(INITIAL, xs).procs[pid]; var w := Run(INITIAL, xs + ys).world;
      && (p.next.outcome.Answered? && p.req.Advertise? ==> OfferOk(w, p.req.oid, p.next.outcome.resp))
      && (p.next.outcome.Answered? && p.req.Register? ==>
          RegistrationOk(w, p.req.oid, p.req.size, p.next.outcome.resp))
      && (p.next.outcome.Answered? ==> p.req.Advertise? || p.req.Register?)
      && (p.next.outcome.Streamed? ==>
          p.req.Fetch? && Uploaded(w, p.req.oid) &&
          p.next.outcome.length == w.rows[p.req.oid].size == |p.next.outcome.content|)
      && (p.next.outcome.Stored? ==> p.req.Put? && Uploaded(w, p.req.oid) && HasContent(w, p.req.oid))
      && (p.next.outcome.Verified? ==>
          p.req.Verify? && Uploaded(w, p.req.rawOid) && w.rows[p.req.rawOid].size == p.req.rawSize)
      && (p.next.outcome == Failed(SizeMismatch) ==>
          p.req.Verify? && p.req.rawOid in w.rows && w.rows[p.req.rawOid].size != p.req.rawSize)
  {
    hide ObjectKey, MetadataKey;
    var s := Run(INITIAL, xs);
    ReachableInvariant(xs);
    RunAppend(INITIAL, xs, ys);
    RunsKeepInvariant(s, ys);
    assert ProcessInv(s.world, s.procs[pid]);
    KnowledgeIsStable(s.world, Run(INITIAL, xs + ys).world, s.procs[pid]);
  }

  /** ExistsByOID answers from the cache when it can; whenever it answers, it says what the table says. */
  lemma ExistenceMatchesTable(events: seq<Event>, oid: OID, f: Service.Faults)
    ensures var w := Run(INITIAL, events).world;
      Service.Exists(w, oid, f).Ok? ==> Service.Exists(w, oid, f).value == (oid in w.rows)
  {
    ReachableInvariant(events);
  }

  /** No blob collisions: every row carries the key generated from its own oid and algorithm, so a
      store call made for one object leaves the content of every other object as it was. */
  lemma PutsDoNotCollide(events: seq<Event>, pid: nat, f: Fault, other: OID)
    requires pid in Run(INITIAL, events).procs
    requires other in Run(INITIAL, events).world.rows && other != OidOf(Run(INITIAL, events).procs[pid].req)
    ensures var s := Run(INITIAL, events); var w, w' := s.world, Exec(s, Step(pid, f)).world;
      var key := w.rows[other].storageKey;
      && GenerateStorageKey(other, w.rows[other].hashAlgo) == Ok(key)
      && other in w'.rows && w'.rows[other].storageKey == key
      && (key in w'.blobs <==> key in w.blobs) && (key in w.blobs ==> w'.blobs[key] == w.blobs[key])
  {
    var s := Run(INITIAL, events);
    ReachableInvariant(events);
    StepKeepsInvariant(s, Step(pid, f));
    OIDsAreAccepted(other);
    StepLeavesOtherContent(s.world, s.procs[pid], f, other);
  }

  lemma StepLeavesOtherContent(w: World, p: Process, f: Fault, other: OID)
    requires WorldInv(w) && ProcessInv(w, p) && other != OidOf(p.req)
    ensures var w' := Advance(w, p, f).0; var key := ObjectKey(other);
      (key in w'.blobs <==> key in w.blobs) && (key in w.blobs ==> w'.blobs[key] == w.blobs[key])
  {
    hide ObjectKey, MetadataKey;
    Footprint(w, p, f);
    if p.next.StoreBlob? {
      ObjectKeyInjective(other, p.req.oid);
    }
  }

  /** A policy is saved only after its object's row exists, so the foreign key never rejects it:
      the save fails exactly on a store fault or a repository name the column refuses. */
  lemma ForeignKeyNeverRejects(events: seq<Event>, pid: nat, f: Fault)
    requires pid in Run(INITIAL, events).procs && Run(INITIAL, events).procs[pid].next.SavePolicy?
    requires RepositoryOf(Run(INITIAL, events).procs[pid].req).Some?
    ensures var s := Run(INITIAL, events); var repo := RepositoryOf(s.procs[pid].req).value;
      UpsertPolicy(s.world, OidOf(s.procs[pid].req), repo, f).1.Ok? <==> f == Fine && Column(repo.FullName()).Some?
  {
    ReachableInvariant(events);
    assert ProcessInv(Run(INITIAL, events).world, Run(INITIAL, events).procs[pid]);
  }
}

/** Verify never looks at storage. When does every object marked uploaded have its content? */
module StoredContent {
  import opened StorageKeys
  import opened Stores
  import opened Lifecycle
  import opened LifecycleInvariants

  /** Every object marked uploaded has its content in the bucket. */
  ghost predicate Backed(w: World) {
    forall o :: Uploaded(w, o) ==> HasContent(w, o)
  }

  /** A verify reaches the table for an object whose content is not in the bucket. */
  predicate BlindVerify(s: System, e: Event) {
    e.Step? && e.fault != Lost && e.pid in s.procs && s.procs[e.pid].req.Verify? && s.procs[e.pid].next.WriteRow? &&
    !HasContent(s.world, s.procs[e.pid].req.rawOid)
  }

  ghost predicate BackedThroughout(s: System, events: seq<Event>)
    decreases |events|
  {
    Backed(s.world) && (events == [] || BackedThroughout(Exec(s, events[0]), events[1..]))
  }

  predicate NoBlindVerify(s: System, events: seq<Event>)
    decreases |events|
  {
    events == [] || (!BlindVerify(s, events[0]) && NoBlindVerify(Exec(s, events[0]), events[1..]))
  }

  lemma ContentStays(w: World, w': World, oid: string)
    requires Grows(w, w') && HasContent(w, oid)
    ensures HasContent(w', oid)
  {
  }

  /** Only a verify that reaches the table can mark an object that has no content. */
  lemma MarkedWithContent(w: World, p: Process, f: Fault, oid: string)
    requires WorldInv(w) && ProcessInv(w, p) && Grows(w, Advance(w, p, f).0)
    requires Uploaded(Advance(w, p, f).0, oid) && !Uploaded(w, oid)
    ensures f != Lost && p.next.WriteRow? && OidOf(p.req) == oid && (p.req.Put? ==> HasContent(w, oid))
    ensures Advance(w, p, f).0.blobs == w.blobs
  {
    hide HasContent;
    Footprint(w, p, f);
    assert p.next.Insert? || p.next.WriteRow?;
  }

  lemma StepBacked(s: System, e: Event)
    requires Inv(s) && Backed(s.world)
    ensures Backed(Exec(s, e).world) <==> !BlindVerify(s, e)
  {
    hide HasContent, Advance;
    StepKeepsInvariant(s, e);
    var w, w' := s.world, Exec(s, e).world;
    if BlindVerify(s, e) {
      var p := s.procs[e.pid];
      assert ProcessInv(w, p);
      BlindVerifyMarks(w, p, e.fault);
      assert Uploaded(w', p.req.rawOid) && !HasContent(w', p.req.rawOid);
    } else {
      forall o | Uploaded(w', o) ensures HasContent(w', o) {
        if !Uploaded(w, o) {
          MarkedWithContent(w, s.procs[e.pid], e.fault, o);
        }
        ContentStays(w, w', o);
      }
    }
  }

  lemma BlindVerifyMarks(w: World, p: Process, f: Fault)
    requires WorldInv(w) && ProcessInv(w, p) && p.req.Verify? && p.next.WriteRow? && f != Lost
    ensures Uploaded(Advance(w, p, f).0, p.req.rawOid)
    ensures HasContent(Advance(w, p, f).0, p.req.rawOid) <==> HasContent(w, p.req.rawOid)
  {
    hide ObjectKey;
  }

  /** Stored content matches the record, exactly when: over a whole run every uploaded object has
      its content (of the registered size, by the invariant) if and only if no verify reaches the
      table before the content is in the bucket, which is what one existence check of the storage
      key in VerifyUpload would establish. */
  lemma {:induction false} BackedExactlyWhenVerifyIsNotBlind(s: System, events: seq<Event>)
    requires Inv(s) && Backed(s.world)
    ensures BackedThroughout(s, events) <==> NoBlindVerify(s, events)
    decreases |events|
  {
    if events != [] {
      var s' := Exec(s, events[0]);
      StepKeepsInvariant(s, events[0]);
      StepBacked(s, events[0]);
      if Backed(s'.world) {
        BackedExactlyWhenVerifyIsNotBlind(s', events[1..]);
      }
    }
  }

  // ---------- clients that verify after their upload ----------

  /** A PUT of this object has completed. */
  ghost predicate PutCompleted(s: System, oid: string) {
    exists pid :: pid in s.procs && s.procs[pid].req.Put? && s.procs[pid].req.oid == oid &&
      s.procs[pid].next == Done(Stored)
  }

  ghost predicate VerifyFollowsPut(s: System, events: seq<Event>)
    decreases |events|
  {
    events == [] ||
    (&& (events[0].Arrive? && events[0].req.Verify? ==> PutCompleted(s, events[0].req.rawOid))
     && VerifyFollowsPut(Exec(s, events[0]), events[1..]))
  }

  ghost predicate VerifiesHaveContent(s: System) {
    forall pid :: pid in s.procs && s.procs[pid].req.Verify? ==> HasContent(s.world, s.procs[pid].req.rawOid)
  }

  lemma {:induction false} VerifyAfterPutIsNotBlind(s: System, events: seq<Event>)
    requires Inv(s) && VerifiesHaveContent(s) && VerifyFollowsPut(s, events)
    ensures NoBlindVerify(s, events)
    decreases |events|
  {
    hide ObjectKey;
    if events != [] {
      var s' := Exec(s, events[0]);
      StepKeepsInvariant(s, events[0]);
      if events[0].Arrive? && events[0].req.Verify? {
        var pid :| pid in s.procs && s.procs[pid].req.Put? && s.procs[pid].req.oid == events[0].req.rawOid &&
          s.procs[pid].next == Done(Stored);
        assert ProcessInv(s.world, s.procs[pid]);
      }
      assert VerifiesHaveContent(s');
      VerifyAfterPutIsNotBlind(s', events[1..]);
    }
  }

  /** In every run where the verify of an object follows a completed PUT of it, every uploaded row
      has a blob under its storage key of exactly the recorded size. */
  lemma StoredContentMatchesRecord(events: seq<Event>, oid: string)
    requires VerifyFollowsPut(INITIAL, events)
    ensures var w := Run(INITIAL, events).world;
      Uploaded(w, oid) ==> var key := w.rows[oid].storageKey; key in w.blobs && |w.blobs[key]| == w.rows[oid].size
  {
    VerifyAfterPutIsNotBlind(INITIAL, events);
    assert Inv(INITIAL);
    BackedExactlyWhenVerifyIsNotBlind(INITIAL, events);
    BackedAtEnd(INITIAL, events);
    ReachableInvariant(events);
    var w := Run(INITIAL, events).world;
    assert Uploaded(w, oid) ==> HasContent(w, oid);
  }

  lemma {:induction false} BackedAtEnd(s: System, events: seq<Event>)
    requires BackedThroughout(s, events)
    ensures Backed(Run(s, events).world)
    decreases |events|
  {
    if events != [] {
      BackedAtEnd(Exec(s, events[0]), events[1..]);
    }
  }
}
