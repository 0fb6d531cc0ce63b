// Runs as schedules: which event of a run reads a policy, writes one, or stores content, and what
// their order decides.

module Schedules {
  import opened Prelude
  import opened Lifecycle
  import opened LifecycleInvariants
  import opened Ownership

  /** The system before event `i` of a run that starts from nothing. */
  function At(events: seq<Event>, i: nat): System
    requires i <= |events|
  {
    Run(INITIAL, events[..i])
  }

  lemma AtNext(events: seq<Event>, i: nat)
    requires i < |events|
    ensures At(events, i + 1) == Exec(At(events, i), events[i])
    ensures Inv(At(events, i)) && Inv(At(events, i + 1))
  {
    hide Exec, Inv;
    assert events[..i + 1] == events[..i] + [events[i]];
    RunAppend(INITIAL, events[..i], [events[i]]);
    assert [events[i]][1..] == [];
    ReachableInvariant(events[..i]);
    ReachableInvariant(events[..i + 1]);
  }

  // ---------- the events that matter ----------

  /** Event `i` is the call in which the process asks whether it may touch its object. */
  predicate ReadsPolicy(events: seq<Event>, i: nat, pid: nat) {
    i < |events| && events[i].Step? && events[i].pid == pid && pid in At(events, i).procs &&
    At(events, i).procs[pid].next.ReadPolicy?
  }

  /** Event `j` is the call in which the process puts this text into the policy of the object. */
  predicate WritesPolicy(events: seq<Event>, j: nat, pid: nat, oid: string, text: string) {
    j < |events| && events[j].Step? && events[j].pid == pid &&
    PolicyWrite(At(events, j), events[j]) == Some(text) && OidOf(At(events, j).procs[pid].req) == oid
  }

  // ---------- who owns an object ----------

  /** Once an object belongs to a repository it does so to the end. */
  ghost predicate OwnersNeverChange(events: seq<Event>) {
    forall i: nat, j: nat {:trigger At(events, i), At(events, j)} :: i <= j <= |events| ==>
      OwnersKept(At(events, i).world.policies, At(events, j).world.policies)
  }

  /** Between the policy read of a registration and its policy write nobody writes another name
      into the policy of that object. */
  ghost predicate Undisturbed(events: seq<Event>) {
    forall i: nat, k: nat, j: nat, pid: nat, q: nat, oid: string, mine: string, other: string ::
      (i < k < j && ReadsPolicy(events, i, pid) && WritesPolicy(events, j, pid, oid, mine) &&
       WritesPolicy(events, k, q, oid, other)) ==> other == mine
  }

  lemma PolicyAfterWrite(events: seq<Event>, j: nat, pid: nat, oid: string, text: string)
    requires WritesPolicy(events, j, pid, oid, text)
    ensures oid in At(events, j + 1).world.policies && At(events, j + 1).world.policies[oid] == text
  {
    hide Exec, Inv, PolicyWrite;
    AtNext(events, j);
    StepKeepsOwners(At(events, j), events[j]);
  }

  lemma WriterOfChange(s: System, e: Event)
    ensures PolicyWrite(s, e).Some? ==> e.Step? && e.pid in s.procs
  {
  }

  /** Nobody writes the policy of the object strictly between two events. */
  ghost predicate NoWriteBetween(events: seq<Event>, k: nat, j: nat, oid: string) {
    forall m: nat, r: nat, text: string :: k < m < j ==> !WritesPolicy(events, m, r, oid, text)
  }

  /** The last write of the policy in i..j, or none: the policy at `j` is what was written then, or
      what it was at `i`. */
  lemma {:induction false} LastWrite(events: seq<Event>, i: nat, j: nat, oid: string)
    returns (k: nat, q: nat, text: Option<string>)
    requires i <= j <= |events|
    ensures text.Some? ==>
              i <= k < j && WritesPolicy(events, k, q, oid, text.value) && NoWriteBetween(events, k, j, oid) &&
              PolicyOf(events, j, oid) == text
    ensures text.None? ==> PolicyOf(events, j, oid) == PolicyOf(events, i, oid)
    decreases j
  {
    hide Exec, Inv, PolicyWrite, Run;
    k, q, text := 0, 0, None;
    if i < j {
      var s, e := At(events, j - 1), events[j - 1];
      AtNext(events, j - 1);
      StepKeepsOwners(s, e);
      WriterOfChange(s, e);
      if PolicyWrite(s, e).Some? && OidOf(s.procs[e.pid].req) == oid {
        k, q, text := j - 1, e.pid, PolicyWrite(s, e);
      } else {
        k, q, text := LastWrite(events, i, j - 1, oid);
      }
    }
  }

  function PolicyOf(events: seq<Event>, j: nat, oid: string): Option<string>
    requires j <= |events|
  {
    if oid in At(events, j).world.policies then Some(At(events, j).world.policies[oid]) else None
  }

  /** A policy nobody writes after `k` is what was written at `k`. */
  lemma WrittenStays(events: seq<Event>, k: nat, j: nat, q: nat, oid: string, text: string)
    requires k < j <= |events| && WritesPolicy(events, k, q, oid, text) && NoWriteBetween(events, k, j, oid)
    ensures PolicyOf(events, j, oid) == Some(text)
  {
    hide Run, WritesPolicy;
    PolicyAfterWrite(events, k, q, oid, text);
    var m, r, last := LastWrite(events, k + 1, j, oid);
  }

  /** A registration that was told its object is new read the policy when there was none. */
  lemma {:induction false} RegistrationRead(events: seq<Event>, j: nat, pid: nat, oid: string) returns (i: nat)
    requires j <= |events| && pid in At(events, j).procs && Registering(At(events, j).procs[pid], oid)
    ensures i < j && ReadsPolicy(events, i, pid) && oid !in At(events, i).world.policies
    decreases j
  {
    hide Inv, Advance, Registering, Run;
    NothingAtFirst(events);
    var s, e := At(events, j - 1), events[j - 1];
    AtNext(events, j - 1);
    if e.Step? && e.pid == pid && pid in s.procs {
      RegisteringStep(s.world, s.procs[pid], e.fault, oid);
      if Registering(s.procs[pid], oid) {
        i := RegistrationRead(events, j - 1, pid, oid);
      } else {
        i := j - 1;
      }
    } else {
      NotRegisteringOnArrival(e, oid);
      i := RegistrationRead(events, j - 1, pid, oid);
    }
  }

  lemma NothingAtFirst(events: seq<Event>)
    ensures At(events, 0) == INITIAL
  {
  }

  lemma NotRegisteringOnArrival(e: Event, oid: string)
    ensures e.Arrive? ==> !Registering(Process(e.req, Start(e.req)), oid)
  {
  }

  /** No object changes hands in a run if and only if no registration is disturbed between its policy
      read and its policy write: a condition on the order of the store calls alone. */
  lemma OwnershipStableExactlyWhen(events: seq<Event>)
    ensures OwnersNeverChange(events) <==> Undisturbed(events)
  {
    if OwnersNeverChange(events) {
      StableIsUndisturbed(events);
    }
    if Undisturbed(events) {
      UndisturbedIsStable(events);
    }
  }

  lemma StableIsUndisturbed(events: seq<Event>)
    requires OwnersNeverChange(events)
    ensures Undisturbed(events)
  {
    hide PolicyWrite, Run, ReadsPolicy, WritesPolicy;
    forall i: nat, k: nat, j: nat, pid: nat, q: nat, oid: string, mine: string, other: string |
      i < k < j && ReadsPolicy(events, i, pid) && WritesPolicy(events, j, pid, oid, mine) &&
      WritesPolicy(events, k, q, oid, other)
      ensures other == mine
    {
      WrittenInRange(events, j, pid, oid, mine);
      PolicyAfterWrite(events, k, q, oid, other);
      PolicyAfterWrite(events, j, pid, oid, mine);
      assert OwnersKept(At(events, k + 1).world.policies, At(events, j + 1).world.policies);
    }
  }

  lemma WrittenInRange(events: seq<Event>, j: nat, pid: nat, oid: string, text: string)
    requires WritesPolicy(events, j, pid, oid, text)
    ensures j < |events|
  {
  }

  lemma UndisturbedStep(events: seq<Event>, j: nat)
    requires Undisturbed(events) && j < |events|
    ensures OwnersKept(At(events, j).world.policies, At(events, j + 1).world.policies)
  {
    hide Run, Exec, Inv;
    var s, e := At(events, j), events[j];
    AtNext(events, j);
    StepKeepsOwners(s, e);
    if OverwritesOwner(s, e) {
      var pid := e.pid;
      var oid := OidOf(s.procs[pid].req);
      var mine := PolicyWrite(s, e).value;
      SaverIsRegistering(s, pid);
      var i := RegistrationRead(events, j, pid, oid);
      assert WritesPolicy(events, j, pid, oid, mine);
      var k, q, text := LastWrite(events, i, j, oid);
      ReadIsNoWrite(events, i, q, oid, s.world.policies[oid]);
    }
  }

  lemma SaverIsRegistering(s: System, pid: nat)
    requires Inv(s) && pid in s.procs && s.procs[pid].next.SavePolicy?
    ensures Registering(s.procs[pid], OidOf(s.procs[pid].req))
  {
    assert ProcessInv(s.world, s.procs[pid]);
  }

  lemma ReadIsNoWrite(events: seq<Event>, i: nat, q: nat, oid: string, text: string)
    ensures forall pid :: ReadsPolicy(events, i, pid) ==> !WritesPolicy(events, i, q, oid, text)
  {
  }

  lemma UndisturbedIsStable(events: seq<Event>)
    requires Undisturbed(events)
    ensures OwnersNeverChange(events)
  {
    hide Run, Undisturbed;
    forall i: nat, j: nat | i <= j <= |events|
      ensures OwnersKept(At(events, i).world.policies, At(events, j).world.policies)
    {
      UndisturbedSpan(events, i, j);
    }
  }

  lemma {:induction false} UndisturbedSpan(events: seq<Event>, i: nat, j: nat)
    requires Undisturbed(events) && i <= j <= |events|
    ensures OwnersKept(At(events, i).world.policies, At(events, j).world.policies)
    decreases j
  {
    hide Run, Undisturbed;
    if i < j {
      UndisturbedSpan(events, i, j - 1);
      UndisturbedStep(events, j - 1);
    }
  }

  // ---------- downloads ----------

  /** A download that was let in read the policy when it named the download's repository. */
  lemma {:induction false} DownloadWasLetIn(events: seq<Event>, j: nat, pid: nat) returns (i: nat)
    requires j <= |events| && pid in At(events, j).procs && LetIn(At(events, j).procs[pid])
    ensures i < j && ReadsPolicy(events, i, pid)
    ensures var req := At(events, j).procs[pid].req; OwnedBy(At(events, i).world.policies, OidOf(req),
                                                             RepositoryOf(req))
    decreases j
  {
    hide Inv, Advance, LetIn, Run, RepositoryOf, OwnedBy;
    NothingAtFirst(events);
    var s, e := At(events, j - 1), events[j - 1];
    AtNext(events, j - 1);
    if e.Step? && e.pid == pid && pid in s.procs {
      LettingIn(s.world, s.procs[pid], e.fault);
      if LetIn(s.procs[pid]) {
        i := DownloadWasLetIn(events, j - 1, pid);
      } else {
        i := j - 1;
      }
    } else {
      NotLetInOnArrival(e);
      i := DownloadWasLetIn(events, j - 1, pid);
    }
  }

  lemma NotLetInOnArrival(e: Event)
    ensures e.Arrive? ==> !LetIn(Process(e.req, Start(e.req)))
  {
  }

  /** While no registration is disturbed, a download that is let in, at any moment, was asked for by
      the repository that owns the object then and owns it to the end of the run. */
  lemma DownloadsServeTheOwner(events: seq<Event>, j: nat, pid: nat)
    requires Undisturbed(events) && j <= |events| && pid in At(events, j).procs && LetIn(At(events, j).procs[pid])
    ensures var req := At(events, j).procs[pid].req;
      && OwnedBy(At(events, j).world.policies, OidOf(req), RepositoryOf(req))
      && OwnedBy(Run(INITIAL, events).world.policies, OidOf(req), RepositoryOf(req))
  {
    hide Run, Undisturbed, LetIn, RepositoryOf;
    var i := DownloadWasLetIn(events, j, pid);
    OwnershipStableExactlyWhen(events);
    assert events[..|events|] == events;
    assert OwnersKept(At(events, i).world.policies, At(events, j).world.policies);
    assert OwnersKept(At(events, j).world.policies, At(events, |events|).world.policies);
  }

  // ---------- registrations one at a time ----------

  lemma {:induction false} NoOverwriteAt(s: System, events: seq<Event>, j: nat)
    requires NoOverwrite(s, events) && j < |events|
    ensures !OverwritesOwner(Run(s, events[..j]), events[j])
    decreases j
  {
    hide OverwritesOwner, Exec;
    if j > 0 {
      NoOverwriteAt(Exec(s, events[0]), events[1..], j - 1);
      assert events[..j][1..] == events[1..][..j - 1];
    }
  }

  lemma {:induction false} SerialisedSpan(events: seq<Event>, i: nat, j: nat)
    requires NoOverwrite(INITIAL, events) && i <= j <= |events|
    ensures OwnersKept(At(events, i).world.policies, At(events, j).world.policies)
    decreases j
  {
    hide Run, NoOverwrite, Inv, OverwritesOwner, PolicyWrite;
    if i < j {
      SerialisedSpan(events, i, j - 1);
      AtNext(events, j - 1);
      NoOverwriteAt(INITIAL, events, j - 1);
      StepKeepsOwners(At(events, j - 1), events[j - 1]);
    }
  }

  /** Registrations of an object that run one at a time do not disturb each other. */
  lemma SerialisedIsUndisturbed(events: seq<Event>)
    requires Serialised(INITIAL, events)
    ensures Undisturbed(events)
  {
    hide Run, Serialised, NoOverwrite;
    assert Inv(INITIAL);
    SerialisedRunsDoNotOverwrite(INITIAL, events);
    forall i: nat, j: nat | i <= j <= |events|
      ensures OwnersKept(At(events, i).world.policies, At(events, j).world.policies)
    {
      SerialisedSpan(events, i, j);
    }
    OwnershipStableExactlyWhen(events);
  }

  /** First owner for good: when registrations of an object run one at a time, its repository never
      changes once set, although the save is an upsert. */
  lemma FirstOwnerForGood(xs: seq<Event>, ys: seq<Event>, oid: string)
    requires Serialised(INITIAL, xs + ys) && oid in Run(INITIAL, xs).world.policies
    ensures oid in Run(INITIAL, xs + ys).world.policies
    ensures Run(INITIAL, xs + ys).world.policies[oid] == Run(INITIAL, xs).world.policies[oid]
  {
    hide Run, Serialised, Undisturbed;
    var events := xs + ys;
    SerialisedIsUndisturbed(events);
    OwnershipStableExactlyWhen(events);
    assert events[..|xs|] == xs && events[..|events|] == events;
    assert OwnersKept(At(events, |xs|).world.policies, At(events, |events|).world.policies);
  }

  /** Every download that was let in in such a run was made for the repository that owns the object
      from its first registration to the end of the run. */
  lemma DownloadsServeTheFirstOwner(xs: seq<Event>, ys: seq<Event>, pid: nat)
    requires Serialised(INITIAL, xs + ys)
    requires pid in Run(INITIAL, xs).procs && LetIn(Run(INITIAL, xs).procs[pid])
    ensures var p := Run(INITIAL, xs).procs[pid];
      && OwnedBy(Run(INITIAL, xs).world.policies, OidOf(p.req), RepositoryOf(p.req))
      && OwnedBy(Run(INITIAL, xs + ys).world.policies, OidOf(p.req), RepositoryOf(p.req))
  {
    hide Run, Serialised, Undisturbed, LetIn, RepositoryOf;
    SerialisedIsUndisturbed(xs + ys);
    assert (xs + ys)[..|xs|] == xs;
    DownloadsServeTheOwner(xs + ys, |xs|, pid);
  }
}

// Whose content an object has, and who may replace it.

module Provenance {
  import opened Prelude
  import opened Domain
  import opened StorageKeys
  import opened Stores
  import opened Authorization
  import opened Lifecycle
  import opened LifecycleInvariants
  import opened Ownership
  import opened Schedules

  /** What a step puts into the bucket for its object, if it puts something there. */
  function Deposit(s: System, e: Event): Option<seq<bv8>> {
    if e.Step? && e.fault != Lost && e.pid in s.procs && s.procs[e.pid].next.StoreBlob? && s.procs[e.pid].req.Put? &&
       0 <= s.procs[e.pid].next.copy.size <= |s.procs[e.pid].req.body|
    then Some(s.procs[e.pid].req.body[..s.procs[e.pid].next.copy.size]) else None
  }

  /** Event `j` is the call in which a PUT of the object replaces its content. */
  predicate StoresContent(events: seq<Event>, j: nat, pid: nat, oid: OID, content: seq<bv8>) {
    j < |events| && events[j].Step? && events[j].pid == pid &&
    Deposit(At(events, j), events[j]) == Some(content) && At(events, j).procs[pid].req.oid == oid
  }

  /** Event `i` is the policy read that let the PUT of the object in: it belonged to the
      repository, or to nobody. */
  predicate LetsIn(events: seq<Event>, i: nat, pid: nat, oid: OID) {
    ReadsPolicy(events, i, pid) && At(events, i).procs[pid].req.Put? && At(events, i).procs[pid].req.oid == oid &&
    (oid in At(events, i).world.policies ==>
       OwnedBy(At(events, i).world.policies, oid, RepositoryOf(At(events, i).procs[pid].req)))
  }

  // ---------- where content comes from ----------

  lemma DepositEffect(s: System, e: Event, oid: OID)
    requires Inv(s)
    ensures var key := ObjectKey(oid); var blobs, blobs' := s.world.blobs, Exec(s, e).world.blobs;
      (key in blobs' && (key in blobs ==> blobs[key] != blobs'[key])) ==>
        Deposit(s, e) == Some(blobs'[key]) && s.procs[e.pid].req.oid == oid
  {
    hide RepositoryIdentifier.FullName, ObjectKey;
    if e.Step? && e.pid in s.procs {
      var p := s.procs[e.pid];
      assert ProcessInv(s.world, p);
      Footprint(s.world, p, e.fault);
      if p.next.StoreBlob? {
        DepositLands(s.world, p, e.fault, oid);
      }
    }
  }

  lemma DepositLands(w: World, p: Process, f: Fault, oid: OID)
    requires WorldInv(w) && ProcessInv(w, p) && p.next.StoreBlob?
    ensures var m := p.next.copy; var blobs := Advance(w, p, f).0.blobs;
      blobs == (if f == Lost || |p.req.body| < m.size then w.blobs
                else w.blobs[ObjectKey(p.req.oid) := p.req.body[..m.size]])
    ensures ObjectKey(oid) == ObjectKey(p.req.oid) ==> oid == p.req.oid
  {
    hide ObjectKey;
    ObjectKeyInjective(oid, p.req.oid);
  }

  /** Every blob under an object's key was put there by a PUT of that object. */
  lemma {:induction false} ContentWasStored(events: seq<Event>, j: nat, oid: OID) returns (k: nat, q: nat)
    requires j <= |events| && ObjectKey(oid) in At(events, j).world.blobs
    ensures k < j && StoresContent(events, k, q, oid, At(events, j).world.blobs[ObjectKey(oid)])
    decreases j
  {
    hide Exec, Inv, Run, ObjectKey, Deposit;
    NothingAtFirst(events);
    var s, s' := At(events, j - 1), At(events, j);
    AtNext(events, j - 1);
    DepositEffect(s, events[j - 1], oid);
    if ObjectKey(oid) in s.world.blobs && s.world.blobs[ObjectKey(oid)] == s'.world.blobs[ObjectKey(oid)] {
      k, q := ContentWasStored(events, j - 1, oid);
    } else {
      DepositorOf(s, events[j - 1]);
      k, q := j - 1, events[j - 1].pid;
    }
  }

  lemma DepositorOf(s: System, e: Event)
    ensures Deposit(s, e).Some? ==> e.Step? && e.pid in s.procs && s.procs[e.pid].req.Put?
  {
  }

  /** A PUT past its policy read. */
  predicate PastPolicy(p: Process) {
    p.req.Put? && (p.next.ReadCached? || p.next.ReadRow? || p.next.FillAfterRead? || p.next.StoreBlob?)
  }

  lemma PastPolicyStep(w: World, p: Process, f: Fault)
    requires PastPolicy(Advance(w, p, f).1)
    ensures Advance(w, p, f).1.req == p.req
    ensures PastPolicy(p) ||
            (p.next.ReadPolicy? && (p.req.oid in w.policies ==> OwnedBy(w.policies, p.req.oid, RepositoryOf(p.req))))
  {
    hide RepositoryIdentifier.FullName, NewRepositoryIdentifier, RepositoryOf;
    if p.next.ReadPolicy? && p.req.Put? {
      AuthorizationDecision(w.policies, UPLOAD, RepositoryOf(p.req), p.req.oid, f);
    }
  }

  lemma {:induction false} PutWasLetIn(events: seq<Event>, j: nat, pid: nat) returns (i: nat)
    requires j <= |events| && pid in At(events, j).procs && PastPolicy(At(events, j).procs[pid])
    ensures i < j && LetsIn(events, i, pid, At(events, j).procs[pid].req.oid)
    decreases j
  {
    hide Inv, Advance, PastPolicy, Run, RepositoryOf;
    NothingAtFirst(events);
    var s, e := At(events, j - 1), events[j - 1];
    AtNext(events, j - 1);
    if e.Step? && e.pid == pid && pid in s.procs {
      PastPolicyStep(s.world, s.procs[pid], e.fault);
      if PastPolicy(s.procs[pid]) {
        i := PutWasLetIn(events, j - 1, pid);
      } else {
        PutsOnly(At(events, j).procs[pid]);
        i := j - 1;
      }
    } else {
      NotPastOnArrival(e);
      i := PutWasLetIn(events, j - 1, pid);
    }
  }

  lemma PutsOnly(p: Process)
    ensures PastPolicy(p) ==> p.req.Put?
  {
  }

  lemma NotPastOnArrival(e: Event)
    ensures e.Arrive? ==> !PastPolicy(Process(e.req, Start(e.req)))
  {
  }

  /** Content that was streamed was in the bucket when it was loaded. */
  lemma {:induction false} ContentWasLoaded(events: seq<Event>, j: nat, pid: nat) returns (m: nat)
    requires j <= |events| && pid in At(events, j).procs && IsStreamed(At(events, j).procs[pid])
    ensures m < j && At(events, j).procs[pid].req.Fetch?
    ensures var p := At(events, j).procs[pid]; var key := ObjectKey(p.req.oid);
      key in At(events, m).world.blobs && At(events, m).world.blobs[key] == p.next.outcome.content
    decreases j
  {
    hide Inv, Advance, Run, ObjectKey;
    NothingAtFirst(events);
    var s, e := At(events, j - 1), events[j - 1];
    AtNext(events, j - 1);
    if e.Step? && e.pid == pid && pid in s.procs && !IsStreamed(s.procs[pid]) {
      StreamingLoads(s, pid, e.fault);
      m := j - 1;
    } else if e.Step? && e.pid == pid && pid in s.procs {
      DoneRests(s.world, s.procs[pid], e.fault);
      m := ContentWasLoaded(events, j - 1, pid);
    } else {
      NotStreamedOnArrival(e);
      m := ContentWasLoaded(events, j - 1, pid);
    }
  }

  predicate IsStreamed(p: Process) {
    p.next.Done? && p.next.outcome.Streamed?
  }

  lemma DoneRests(w: World, p: Process, f: Fault)
    requires p.next.Done?
    ensures Advance(w, p, f) == (w, p)
  {
  }

  lemma NotStreamedOnArrival(e: Event)
    ensures e.Arrive? ==> !IsStreamed(Process(e.req, Start(e.req)))
  {
  }

  lemma StreamingLoads(s: System, pid: nat, f: Fault)
    requires Inv(s) && pid in s.procs && !IsStreamed(s.procs[pid]) && IsStreamed(Advance(s.world, s.procs[pid], f).1)
    ensures var p := Advance(s.world, s.procs[pid], f).1;
      p.req == s.procs[pid].req && p.req.Fetch? && var key := ObjectKey(p.req.oid);
      key in s.world.blobs && s.world.blobs[key] == p.next.outcome.content
  {
    hide ObjectKey, RepositoryIdentifier.FullName;
    assert ProcessInv(s.world, s.procs[pid]);
    assert WorldInv(s.world);
  }

  /** What a download streams is what an upload of the same object brought: the first `size` bytes of
      the body of a PUT that was let in before it stored them, `size` being the registered size. */
  lemma StreamedContentWasPut(events: seq<Event>, pid: nat) returns (i: nat, k: nat, q: nat)
    requires pid in Run(INITIAL, events).procs && IsStreamed(Run(INITIAL, events).procs[pid])
    ensures i < k < |events|
    ensures var p := Run(INITIAL, events).procs[pid];
      && p.req.Fetch? && LetsIn(events, i, q, p.req.oid)
      && StoresContent(events, k, q, p.req.oid, p.next.outcome.content)
      && p.next.outcome.content <= At(events, k).procs[q].req.body
      && p.req.oid in Run(INITIAL, events).world.rows
      && |p.next.outcome.content| == Run(INITIAL, events).world.rows[p.req.oid].size
  {
    hide Inv, Run, ObjectKey;
    assert events[..|events|] == events;
    var p := At(events, |events|).procs[pid];
    ReachableInvariant(events);
    assert ProcessInv(Run(INITIAL, events).world, p) by { InvGivesProcess(Run(INITIAL, events), pid); }
    var m := ContentWasLoaded(events, |events|, pid);
    k, q := ContentWasStored(events, m, p.req.oid);
    DepositorOf(At(events, k), events[k]);
    i := PutWasLetIn(events, k, q);
  }

  lemma InvGivesProcess(s: System, pid: nat)
    requires Inv(s) && pid in s.procs
    ensures ProcessInv(s.world, s.procs[pid])
  {
  }

  // ---------- who may replace it ----------

  /** Only the owner's PUTs replace the content of an object that has an owner. */
  ghost predicate OwnersStore(events: seq<Event>) {
    forall j: nat, pid: nat, oid: OID, content: seq<bv8> ::
      (StoresContent(events, j, pid, oid, content) && oid in At(events, j).world.policies) ==>
      OwnedBy(At(events, j).world.policies, oid, RepositoryOf(At(events, j).procs[pid].req))
  }

  /** No PUT is overtaken: between its policy read and its store nobody writes another name into the
      policy of its object. */
  ghost predicate NoneOvertaken(events: seq<Event>) {
    forall i: nat, k: nat, j: nat, pid: nat, q: nat, oid: OID, name: string, content: seq<bv8> ::
      (i < k < j && ReadsPolicy(events, i, pid) && StoresContent(events, j, pid, oid, content) &&
       WritesPolicy(events, k, q, oid, name)) ==>
      OwnedBy(map[oid := name], oid, RepositoryOf(At(events, j).procs[pid].req))
  }

  lemma StoredByPut(events: seq<Event>, j: nat, pid: nat, oid: OID, content: seq<bv8>)
    requires StoresContent(events, j, pid, oid, content)
    ensures j < |events| && pid in At(events, j).procs && PastPolicy(At(events, j).procs[pid])
    ensures At(events, j).procs[pid].req.oid == oid
  {
  }

  lemma {:induction false} RequestsStay(events: seq<Event>, i: nat, j: nat, pid: nat)
    requires i <= j <= |events| && pid in At(events, i).procs
    ensures pid in At(events, j).procs && At(events, j).procs[pid].req == At(events, i).procs[pid].req
    decreases j
  {
    hide Inv, Advance, Run;
    if i < j {
      RequestsStay(events, i, j - 1, pid);
      AtNext(events, j - 1);
      var s, e := At(events, j - 1), events[j - 1];
      if e.Step? && e.pid in s.procs {
        Footprint(s.world, s.procs[e.pid], e.fault);
      }
    }
  }

  /** If the policy of its object is written between a PUT's policy read and its store, the last name
      written is that of the PUT's own repository. */
  ghost predicate LastWordIsOwn(events: seq<Event>) {
    forall i: nat, k: nat, j: nat, pid: nat, q: nat, oid: OID, name: string, content: seq<bv8> ::
      (i < k < j && ReadsPolicy(events, i, pid) && StoresContent(events, j, pid, oid, content) &&
       WritesPolicy(events, k, q, oid, name) && NoWriteBetween(events, k, j, oid)) ==>
      OwnedBy(map[oid := name], oid, RepositoryOf(At(events, j).procs[pid].req))
  }

  /** A PUT is let in when its object has no policy, so a repository can replace the content of an
      object of another one. In any run only owners replace the content of owned objects if and only
      if the last policy write between the policy read and the store of each PUT, if there is one, is
      of the PUT's own name: a condition on the order of the store calls. It is enough that no PUT is
      overtaken by a write of another name, and where owners never change that is the same. */
  lemma OwnersStoreExactlyWhen(events: seq<Event>)
    ensures OwnersStore(events) <==> LastWordIsOwn(events)
    ensures NoneOvertaken(events) ==> OwnersStore(events)
    ensures OwnersNeverChange(events) ==> (OwnersStore(events) <==> NoneOvertaken(events))
  {
    if LastWordIsOwn(events) {
      OwnWordIsOwned(events);
    }
    if OwnersStore(events) {
      OwnedIsOwnWord(events);
    }
    assert NoneOvertaken(events) ==> LastWordIsOwn(events) by { NotOvertakenIsOwnWord(events); }
    if OwnersNeverChange(events) && OwnersStore(events) {
      OwnedIsOnTime(events);
    }
  }

  lemma NotOvertakenIsOwnWord(events: seq<Event>)
    ensures NoneOvertaken(events) ==> LastWordIsOwn(events)
  {
    hide Run, StoresContent, WritesPolicy, ReadsPolicy, NoWriteBetween, RepositoryOf, OwnedBy;
  }

  lemma OwnWordIsOwned(events: seq<Event>)
    requires LastWordIsOwn(events)
    ensures OwnersStore(events)
  {
    hide Run, Deposit, LastWordIsOwn, RepositoryOf, RepositoryIdentifier.FullName;
    forall j: nat, pid: nat, oid: OID, content: seq<bv8> |
      StoresContent(events, j, pid, oid, content) && oid in At(events, j).world.policies
      ensures pid in At(events, j).procs
      ensures OwnedBy(At(events, j).world.policies, oid, RepositoryOf(At(events, j).procs[pid].req))
    {
      StoredByPut(events, j, pid, oid, content);
      OwnWordStore(events, j, pid, oid, content);
    }
  }

  lemma OwnWordStore(events: seq<Event>, j: nat, pid: nat, oid: OID, content: seq<bv8>)
    requires LastWordIsOwn(events) && StoresContent(events, j, pid, oid, content) && oid in At(events, j).world.policies
    ensures OwnedBy(At(events, j).world.policies, oid, RepositoryOf(At(events, j).procs[pid].req))
  {
    hide Run, RepositoryOf, RepositoryIdentifier.FullName, PolicyWrite, NoWriteBetween;
    StoredByPut(events, j, pid, oid, content);
    var i := PutWasLetIn(events, j, pid);
    RequestsStay(events, i, j, pid);
    var k, q, text := LastWrite(events, i, j, oid);
    if text.Some? {
      ReadIsNoWrite(events, i, q, oid, text.value);
    }
  }

  lemma OwnedIsOwnWord(events: seq<Event>)
    requires OwnersStore(events)
    ensures LastWordIsOwn(events)
  {
    hide Run, StoresContent, WritesPolicy, ReadsPolicy, NoWriteBetween, RepositoryOf, RepositoryIdentifier.FullName;
    forall i: nat, k: nat, j: nat, pid: nat, q: nat, oid: OID, name: string, content: seq<bv8> |
      i < k < j && ReadsPolicy(events, i, pid) && StoresContent(events, j, pid, oid, content) &&
      WritesPolicy(events, k, q, oid, name) && NoWriteBetween(events, k, j, oid)
      ensures j < |events| && pid in At(events, j).procs
      ensures OwnedBy(map[oid := name], oid, RepositoryOf(At(events, j).procs[pid].req))
    {
      StoredByPut(events, j, pid, oid, content);
      WrittenStays(events, k, j, q, oid, name);
    }
  }

  lemma OwnedIsOnTime(events: seq<Event>)
    requires OwnersNeverChange(events) && OwnersStore(events)
    ensures NoneOvertaken(events)
  {
    hide Run, StoresContent, WritesPolicy, ReadsPolicy, RepositoryOf, RepositoryIdentifier.FullName;
    forall i: nat, k: nat, j: nat, pid: nat, q: nat, oid: OID, name: string, content: seq<bv8> |
      i < k < j && ReadsPolicy(events, i, pid) && StoresContent(events, j, pid, oid, content) &&
      WritesPolicy(events, k, q, oid, name)
      ensures j < |events| && pid in At(events, j).procs
      ensures OwnedBy(map[oid := name], oid, RepositoryOf(At(events, j).procs[pid].req))
    {
      StoredByPut(events, j, pid, oid, content);
      PolicyAfterWrite(events, k, q, oid, name);
      assert OwnersKept(At(events, k + 1).world.policies, At(events, j).world.policies);
    }
  }
}
