// Whole requests one after the other, and batches as such sequences: both are among the runs of the
// interleaved service, and in them registrations run one at a time.

module Sequences {
  import opened Prelude
  import Domain
  import opened Stores
  import opened BatchApi
  import opened Service
  import Lifecycle
  import opened Refinement
  import opened Ownership
  import opened Schedules
  import opened Batch

  /** A request and how its store calls go. */
  datatype Job = Job(req: Request, f: Faults)

  /** The stores and the outcomes of the requests, each run to its end before the next begins. */
  function InSequence(w: World, jobs: seq<Job>): (World, seq<Outcome>)
    decreases |jobs|
  {
    if jobs == [] then (w, [])
    else
      var (w1, out) := Operation(w, jobs[0].req, jobs[0].f);
      var (w2, rest) := InSequence(w1, jobs[1..]);
      (w2, [out] + rest)
  }

  /** The arrival of a request and all its store calls. */
  function WholeRequest(w: World, job: Job, pid: nat): seq<Lifecycle.Event> {
    [Lifecycle.Arrive(pid, job.req)] + Schedule(pid, w, Lifecycle.Process(job.req, Lifecycle.Start(job.req)), job.f)
  }

  function SequenceEvents(w: World, jobs: seq<Job>, pid: nat): seq<Lifecycle.Event>
    decreases |jobs|
  {
    if jobs == [] then []
    else WholeRequest(w, jobs[0], pid) + SequenceEvents(Operation(w, jobs[0].req, jobs[0].f).0, jobs[1..], pid + 1)
  }

  /** The processes of the sequence, done. */
  function Finished(procs: map<nat, Process>, jobs: seq<Job>, outs: seq<Outcome>, pid: nat): map<nat, Process>
    requires |outs| == |jobs|
    decreases |jobs|
  {
    if jobs == [] then procs
    else Finished(procs[pid := Lifecycle.Process(jobs[0].req, Lifecycle.Done(outs[0]))], jobs[1..], outs[1..], pid + 1)
  }

  lemma {:induction false} OneOutcomeEach(w: World, jobs: seq<Job>)
    ensures |InSequence(w, jobs).1| == |jobs|
    decreases |jobs|
  {
    hide Operation;
    if jobs != [] {
      OneOutcomeEach(Operation(w, jobs[0].req, jobs[0].f).0, jobs[1..]);
    }
  }

  ghost predicate UnusedFrom(s: Lifecycle.System, pid: nat) {
    forall q :: q in s.procs ==> q < pid
  }

  /** A sequence of whole requests is a run of the interleaved service. */
  lemma {:induction false} SequenceIsARun(s: Lifecycle.System, jobs: seq<Job>, pid: nat)
    requires UnusedFrom(s, pid)
    ensures var (w', outs) := InSequence(s.world, jobs);
      && |outs| == |jobs|
      && Lifecycle.Run(s, SequenceEvents(s.world, jobs, pid)) ==
         Lifecycle.System(w', Finished(s.procs, jobs, outs, pid))
    decreases |jobs|
  {
    hide Operation, WholeRequest;
    OneOutcomeEach(s.world, jobs);
    if jobs != [] {
      var (w1, out) := Operation(s.world, jobs[0].req, jobs[0].f);
      var s1 := Lifecycle.System(w1, s.procs[pid := Lifecycle.Process(jobs[0].req, Lifecycle.Done(out))]);
      var first, rest := WholeRequest(s.world, jobs[0], pid), SequenceEvents(w1, jobs[1..], pid + 1);
      WholeRequestRuns(s, jobs[0], pid);
      Lifecycle.RunAppend(s, first, rest);
      SequenceIsARun(s1, jobs[1..], pid + 1);
    }
  }

  lemma WholeRequestRuns(s: Lifecycle.System, job: Job, pid: nat)
    requires pid !in s.procs
    ensures var (w', out) := Operation(s.world, job.req, job.f);
      Lifecycle.Run(s, WholeRequest(s.world, job, pid)) ==
      Lifecycle.System(w', s.procs[pid := Lifecycle.Process(job.req, Lifecycle.Done(out))])
  {
    hide Operation;
    OperationIsARun(s, pid, job.req, job.f);
  }

  // ---------- one registration at a time ----------

  /** No registration is under way, except perhaps that of `pid`. */
  ghost predicate QuietBut(s: Lifecycle.System, pid: nat) {
    forall q, oid :: q in s.procs && q != pid ==> !Registering(s.procs[q], oid)
  }

  ghost predicate Quiet(s: Lifecycle.System) {
    forall q, oid :: q in s.procs ==> !Registering(s.procs[q], oid)
  }

  lemma {:induction false} SerialisedAppend(s: Lifecycle.System, xs: seq<Lifecycle.Event>, ys: seq<Lifecycle.Event>)
    requires Serialised(s, xs) && Serialised(Lifecycle.Run(s, xs), ys)
    ensures Serialised(s, xs + ys)
    decreases |xs|
  {
    hide Lifecycle.Exec, OneAtATime;
    if xs == [] {
      assert xs + ys == ys;
    } else {
      assert (xs + ys)[1..] == xs[1..] + ys;
      SerialisedAppend(Lifecycle.Exec(s, xs[0]), xs[1..], ys);
    }
  }

  lemma {:induction false} ScheduleIsSerialised(s: Lifecycle.System, pid: nat, f: Faults)
    requires pid in s.procs && QuietBut(s, pid)
    ensures Serialised(s, Schedule(pid, s.world, s.procs[pid], f))
    decreases Rank(s.procs[pid].next)
  {
    hide Lifecycle.Advance, Registering, FaultOf;
    var p := s.procs[pid];
    if !p.next.Done? {
      var fault := FaultOf(p.next, f);
      var (w1, p1) := Lifecycle.Advance(s.world, p, fault);
      var s1 := Lifecycle.System(w1, s.procs[pid := p1]);
      StepsGoDown(s.world, p, fault);
      var events := Schedule(pid, s.world, p, f);
      assert events == [Lifecycle.Step(pid, fault)] + Schedule(pid, w1, p1, f);
      assert Lifecycle.Exec(s, events[0]) == s1 && events[1..] == Schedule(pid, w1, p1, f);
      ScheduleIsSerialised(s1, pid, f);
    }
  }

  lemma WholeRequestIsSerialised(s: Lifecycle.System, job: Job, pid: nat)
    requires pid !in s.procs && Quiet(s)
    ensures Serialised(s, WholeRequest(s.world, job, pid))
  {
    hide Registering;
    var arrive := Lifecycle.Arrive(pid, job.req);
    var p := Lifecycle.Process(job.req, Lifecycle.Start(job.req));
    var s1 := s.(procs := s.procs[pid := p]);
    ScheduleIsSerialised(s1, pid, job.f);
    assert WholeRequest(s.world, job, pid)[1..] == Schedule(pid, s.world, p, job.f);
    assert Lifecycle.Exec(s, arrive) == s1;
  }

  /** In a sequence of whole requests registrations run one at a time, whatever else is open. */
  lemma {:induction false} SequenceIsSerialised(s: Lifecycle.System, jobs: seq<Job>, pid: nat)
    requires UnusedFrom(s, pid) && Quiet(s)
    ensures Serialised(s, SequenceEvents(s.world, jobs, pid))
    ensures Quiet(Lifecycle.Run(s, SequenceEvents(s.world, jobs, pid)))
    ensures UnusedFrom(Lifecycle.Run(s, SequenceEvents(s.world, jobs, pid)), pid + |jobs|)
    decreases |jobs|
  {
    hide Operation, WholeRequest;
    if jobs != [] {
      var (w1, out) := Operation(s.world, jobs[0].req, jobs[0].f);
      var s1 := Lifecycle.System(w1, s.procs[pid := Lifecycle.Process(jobs[0].req, Lifecycle.Done(out))]);
      var first, rest := WholeRequest(s.world, jobs[0], pid), SequenceEvents(w1, jobs[1..], pid + 1);
      WholeRequestRuns(s, jobs[0], pid);
      WholeRequestIsSerialised(s, jobs[0], pid);
      SequenceIsSerialised(s1, jobs[1..], pid + 1);
      SerialisedAppend(s, first, rest);
      Lifecycle.RunAppend(s, first, rest);
    }
  }

  lemma {:induction false} EventsAppend(w: World, xs: seq<Job>, ys: seq<Job>, pid: nat)
    ensures SequenceEvents(w, xs + ys, pid) ==
            SequenceEvents(w, xs, pid) + SequenceEvents(InSequence(w, xs).0, ys, pid + |xs|)
    decreases |xs|
  {
    hide Operation, WholeRequest;
    if xs == [] {
      assert xs + ys == ys;
    } else {
      assert (xs + ys)[1..] == xs[1..] + ys;
      EventsAppend(Operation(w, xs[0].req, xs[0].f).0, xs[1..], ys, pid + 1);
    }
  }

  /** When whole requests follow each other no object ever changes hands: a policy there after the
      first requests is there, unchanged, after any more of them. */
  lemma SequencesKeepOwners(xs: seq<Job>, ys: seq<Job>, oid: string)
    requires oid in InSequence(Lifecycle.INITIAL.world, xs).0.policies
    ensures var before := InSequence(Lifecycle.INITIAL.world, xs).0;
      var after := InSequence(Lifecycle.INITIAL.world, xs + ys).0;
      oid in after.policies && after.policies[oid] == before.policies[oid]
  {
    hide InSequence, SequenceEvents, Finished;
    var s := Lifecycle.INITIAL;
    var w1 := InSequence(s.world, xs).0;
    EventsAppend(s.world, xs, ys, 0);
    SequenceIsARun(s, xs, 0);
    SequenceIsARun(s, xs + ys, 0);
    SequenceIsSerialised(s, xs + ys, 0);
    FirstOwnerForGood(SequenceEvents(s.world, xs, 0), SequenceEvents(w1, ys, |xs|), oid);
  }

  // ---------- batches ----------

  /** The requests an upload batch makes: one per object, up to the first that fails. */
  function BatchJobs(w: World, c: CallContext, repo: Option<Domain.Repo>, h: string, objects: seq<RequestObject>,
                     fs: seq<Faults>)
    : seq<Job>
    requires |fs| == |objects| && WellFormed(objects)
    decreases |objects|
  {
    if objects == [] then []
    else
      var job := Job(Lifecycle.Register(c, repo, objects[0].oid, objects[0].size, h), fs[0]);
      var (w1, first) := UploadTurn(w, c, repo, h, objects[0], fs[0]);
      [job] + (if first.Err? then [] else BatchJobs(w1, c, repo, h, objects[1..], fs[1..]))
  }

  /** The outcomes of those requests: the answers, and at the end the error if there is one. */
  ghost predicate OutcomesOf(outs: seq<Outcome>, answers: Answers) {
    match answers
    case Ok(resps) =>
      |outs| == |resps| && forall i :: 0 <= i < |outs| ==> outs[i] == Lifecycle.Answered(resps[i])
    case Err(e) => outs != [] && outs[|outs| - 1] == Lifecycle.Failed(e)
  }

  /** An upload batch is the sequence of its registrations. */
  lemma {:induction false} BatchIsASequence(w: World, c: CallContext, repo: Option<Domain.Repo>, h: string,
                                            objects: seq<RequestObject>, fs: seq<Faults>)
    requires |fs| == |objects| && WellFormed(objects)
    ensures var (w', outs) := InSequence(w, BatchJobs(w, c, repo, h, objects, fs));
      var (w'', answers) := UploadAll(w, c, repo, h, objects, fs);
      w' == w'' && OutcomesOf(outs, answers)
    decreases |objects|
  {
    hide RegisterObject;
    if objects != [] {
      var (w1, first) := UploadTurn(w, c, repo, h, objects[0], fs[0]);
      var jobs := BatchJobs(w, c, repo, h, objects, fs);
      var out := Operation(w, jobs[0].req, jobs[0].f).1;
      if first.Err? {
        assert jobs == [jobs[0]] && jobs[1..] == [];
        assert Operation(w, jobs[0].req, jobs[0].f).0 == w1 && InSequence(w1, jobs[1..]) == (w1, []);
        assert [out] + [] == [out];
      } else {
        assert jobs[1..] == BatchJobs(w1, c, repo, h, objects[1..], fs[1..]);
        BatchIsASequence(w1, c, repo, h, objects[1..], fs[1..]);
        var outs := InSequence(w1, jobs[1..]).1;
        assert InSequence(w, jobs).1 == [out] + outs;
      }
    }
  }

  /** So an upload batch is a run of the interleaved service, and one in which registrations run one at
      a time. */
  lemma BatchIsASerialisedRun(s: Lifecycle.System, c: CallContext, repo: Option<Domain.Repo>, h: string,
                              objects: seq<RequestObject>, fs: seq<Faults>, pid: nat)
    requires |fs| == |objects| && WellFormed(objects) && UnusedFrom(s, pid)
    ensures var events := SequenceEvents(s.world, BatchJobs(s.world, c, repo, h, objects, fs), pid);
      && Lifecycle.Run(s, events).world == UploadAll(s.world, c, repo, h, objects, fs).0
      && (Quiet(s) ==> Serialised(s, events) && Quiet(Lifecycle.Run(s, events)))
  {
    hide InSequence, SequenceEvents, Finished, BatchJobs, UploadAll, Serialised, Quiet;
    var jobs := BatchJobs(s.world, c, repo, h, objects, fs);
    BatchIsASequence(s.world, c, repo, h, objects, fs);
    SequenceIsARun(s, jobs, pid);
    if Quiet(s) {
      SequenceIsSerialised(s, jobs, pid);
    }
  }
}
