// For which batches retrying is safe.

module Convergence {
  import opened Prelude
  import opened Domain
  import opened StorageKeys
  import opened Stores
  import opened BatchApi
  import opened Authorization
  import opened Service
  import opened LifecycleInvariants
  import opened Batch
  import opened Registration
  import opened Retry

  /** The batch gives no oid two sizes. */
  predicate OneSizeEach(objects: seq<RequestObject>) {
    forall i, j :: 0 <= i < |objects| && 0 <= j < |objects| && objects[i].oid == objects[j].oid ==>
      objects[i].size == objects[j].size
  }

  /** The batch repeats one object. */
  predicate OneObject(objects: seq<RequestObject>) {
    forall i :: 0 <= i < |objects| ==> objects[i] == objects[0]
  }

  /** The batches that can be retried safely for a repository. */
  predicate RetrySafe(repo: Repo, objects: seq<RequestObject>) {
    OneSizeEach(objects) && (FitsColumn(repo) || OneObject(objects))
  }

  ghost predicate AlwaysConverges(repo: Repo, objects: seq<RequestObject>) {
    forall w, c, attempts :: Coherent(w) && OnePerObject(attempts, objects) ==> Converges(w, c, repo, objects, attempts)
  }

  lemma {:induction false} SizesOf(objects: seq<RequestObject>) returns (size: map<string, nat>)
    requires OneSizeEach(objects) && WellFormed(objects)
    ensures OneSize(objects, size)
    ensures forall o :: o in size ==> exists i :: 0 <= i < |objects| && objects[i].oid == o
  {
    if objects == [] {
      size := map[];
    } else {
      var n := |objects| - 1;
      assert forall i :: 0 <= i < n ==> objects[..n][i] == objects[i];
      var sizes := SizesOf(objects[..n]);
      size := sizes[objects[n].oid := objects[n].size];
      forall i | 0 <= i < |objects| ensures objects[i].oid in size && size[objects[i].oid] == objects[i].size {
        if i < n {
          assert objects[..n][i] == objects[i];
        }
      }
    }
  }

  // ---------- a batch that repeats one object ----------

  /** How far registrations of the object have got, from `cell`. */
  predicate Stage(cell: Cell, now: Cell, repo: Repo, oid: OID, size: nat) {
    now == cell || (!Denied(cell, repo) && (now == WithRow(cell, oid, size) || now == Settled(cell, repo, oid, size)))
  }

  lemma StageStep(cell: Cell, now: Cell, after: Cell, repo: Repo, oid: OID, size: nat)
    requires Stage(cell, now, repo, oid, size)
    ensures PartWay(now, after, repo, oid, size) ==> Stage(cell, after, repo, oid, size)
    ensures Settled(now, repo, oid, size) == Settled(cell, repo, oid, size)
    ensures Settled(Settled(cell, repo, oid, size), repo, oid, size) == Settled(cell, repo, oid, size)
  {
    hide ObjectKey, RepositoryIdentifier.FullName, Column;
  }

  lemma {:induction false} AttemptIsAStage(w: World, c: CallContext, repo: Repo, obj: RequestObject,
                                           objects: seq<RequestObject>,
                                           fs: seq<Faults>, cell: Cell)
    requires |fs| == |objects| && Coherent(w) && ValidOID(obj.oid) && obj.size >= 0
    requires forall i :: 0 <= i < |objects| ==> objects[i] == obj
    requires Stage(cell, CellOf(w, obj.oid), repo, obj.oid, obj.size)
    ensures var w' := Upload(w, c, repo, objects, fs).0;
      && Coherent(w') && OnlyChanges(w, w', obj.oid) && Stage(cell, CellOf(w', obj.oid), repo, obj.oid, obj.size)
      && (objects != [] && fs == NoFaults(|fs|) ==> CellOf(w', obj.oid) == Settled(cell, repo, obj.oid, obj.size))
    decreases |objects|
  {
    hide UploadTurn, Coherent, CellOf, Settled, WithRow, PartWay, Denied;
    if objects != [] {
      var (w1, r1) := UploadTurn(w, c, Some(repo), DEFAULT_HASH_ALGORITHM, obj, fs[0]);
      TurnEffect(w, c, repo, obj, fs[0]);
      StageStep(cell, CellOf(w, obj.oid), CellOf(w1, obj.oid), repo, obj.oid, obj.size);
      if r1.Ok? {
        assert fs == NoFaults(|fs|) ==> fs[1..] == NoFaults(|fs[1..]|);
        AttemptIsAStage(w1, c, repo, obj, objects[1..], fs[1..], cell);
      }
    }
  }

  lemma {:induction false} AttemptsAreStages(w: World, c: CallContext, repo: Repo, obj: RequestObject,
                                             objects: seq<RequestObject>,
                                             attempts: seq<seq<Faults>>, cell: Cell)
    requires OnePerObject(attempts, objects) && Coherent(w) && ValidOID(obj.oid) && obj.size >= 0
    requires forall i :: 0 <= i < |objects| ==> objects[i] == obj
    requires Stage(cell, CellOf(w, obj.oid), repo, obj.oid, obj.size)
    ensures var w' := Attempts(w, c, repo, objects, attempts);
      Coherent(w') && OnlyChanges(w, w', obj.oid) && Stage(cell, CellOf(w', obj.oid), repo, obj.oid, obj.size)
    decreases |attempts|
  {
    hide Upload, Coherent, CellOf, Stage;
    if attempts != [] {
      AttemptIsAStage(w, c, repo, obj, objects, attempts[0], cell);
      AttemptsAreStages(Upload(w, c, repo, objects, attempts[0]).0, c, repo, obj, objects, attempts[1..], cell);
    }
  }

  lemma {:induction false} NothingToAttempt(w: World, c: CallContext, repo: Repo, attempts: seq<seq<Faults>>)
    requires OnePerObject(attempts, [])
    ensures Attempts(w, c, repo, [], attempts) == w
    decreases |attempts|
  {
    if attempts != [] {
      NothingToAttempt(w, c, repo, attempts[1..]);
    }
  }

  /** Whatever the column makes of the name, repeating one object converges. */
  lemma OneObjectConverges(w: World, c: CallContext, repo: Repo, objects: seq<RequestObject>,
                           attempts: seq<seq<Faults>>)
    requires Coherent(w) && WellFormed(objects) && OneObject(objects) && OnePerObject(attempts, objects)
    ensures Converges(w, c, repo, objects, attempts)
  {
    hide Upload, Coherent, CellOf, Settled, WithRow;
    if objects == [] {
      NothingToAttempt(w, c, repo, attempts);
    } else {
      var obj, fs := objects[0], NoFaults(|objects|);
      var cell, w1 := CellOf(w, obj.oid), Attempts(w, c, repo, objects, attempts);
      AttemptsAreStages(w, c, repo, obj, objects, attempts, cell);
      AttemptIsAStage(w, c, repo, obj, objects, fs, cell);
      AttemptIsAStage(w1, c, repo, obj, objects, fs, cell);
      SameTables(Upload(w1, c, repo, objects, fs).0, Upload(w, c, repo, objects, fs).0);
    }
  }

  // ---------- batches that diverge, from empty stores ----------

  /** Neither the cache nor the table answers the lookup. */
  const BROKEN_LOOKUP := NO_FAULTS.(cacheRead := Lost, rowRead := Lost)

  function Broken(n: nat): seq<Faults> {
    seq(n, _ => BROKEN_LOOKUP)
  }

  /** Every lookup fails except that of object `j`. */
  function AllBut(j: nat, n: nat): seq<Faults>
    requires j < n
    ensures |AllBut(j, n)| == n
  {
    Broken(j) + ([NO_FAULTS] + Broken(n - j - 1))
  }

  lemma BrokenTurn(w: World, c: CallContext, repo: Repo, obj: RequestObject)
    requires ValidOID(obj.oid) && obj.size >= 0
    ensures UploadTurn(w, c, Some(repo), DEFAULT_HASH_ALGORITHM, obj, BROKEN_LOOKUP).0 == w
    ensures w.policies == map[] ==> UploadTurn(w, c, Some(repo), DEFAULT_HASH_ALGORITHM, obj, BROKEN_LOOKUP).1.Ok?
  {
    AuthorizationDecision(w.policies, UPLOAD, Some(repo), obj.oid, Fine);
  }

  lemma {:induction false} BrokenBatch(w: World, c: CallContext, repo: Repo, objects: seq<RequestObject>)
    requires WellFormed(objects)
    ensures Upload(w, c, repo, objects, Broken(|objects|)).0 == w
    ensures w.policies == map[] ==> Upload(w, c, repo, objects, Broken(|objects|)).1.Ok?
    decreases |objects|
  {
    hide UploadTurn;
    if objects != [] {
      BrokenTurn(w, c, repo, objects[0]);
      assert Broken(|objects|)[1..] == Broken(|objects[1..]|);
      BrokenBatch(w, c, repo, objects[1..]);
    }
  }

  /** The stores with one object registered. */
  function Registered(c: CallContext, repo: Repo, obj: RequestObject): World {
    UploadTurn(EMPTY, c, Some(repo), DEFAULT_HASH_ALGORITHM, obj, NO_FAULTS).0
  }

  lemma OnlyOneRegistered(c: CallContext, repo: Repo, objects: seq<RequestObject>, j: nat)
    requires WellFormed(objects) && j < |objects|
    ensures Attempts(EMPTY, c, repo, objects, [AllBut(j, |objects|)]) == Registered(c, repo, objects[j])
  {
    hide UploadTurn;
    var n := |objects|;
    var xs, ys := objects[..j], objects[j + 1..];
    BrokenBatch(EMPTY, c, repo, xs);
    BrokenBatch(Registered(c, repo, objects[j]), c, repo, ys);
    UploadOne(EMPTY, c, repo, objects[j], NO_FAULTS);
    assert objects == xs + ([objects[j]] + ys);
    UploadAllAppend(EMPTY, c, Some(repo), DEFAULT_HASH_ALGORITHM, xs, [objects[j]] + ys, Broken(j),
                    [NO_FAULTS] + Broken(n - j - 1));
    UploadAllAppend(EMPTY, c, Some(repo), DEFAULT_HASH_ALGORITHM, [objects[j]], ys, [NO_FAULTS], Broken(n - j - 1));
    assert [AllBut(j, n)][1..] == [];
  }

  lemma RegisteredCells(c: CallContext, repo: Repo, obj: RequestObject)
    requires ValidOID(obj.oid) && obj.size >= 0
    ensures var w := Registered(c, repo, obj);
      && Coherent(w) && CellOf(w, obj.oid) == Cell(Some(FreshRow(obj.oid, obj.size)), PolicyText(repo))
      && (forall o :: o != obj.oid ==> CellOf(w, o) == Cell(None, None))
    ensures UploadTurn(EMPTY, c, Some(repo), DEFAULT_HASH_ALGORITHM, obj, NO_FAULTS).1.Ok? <==> PolicyText(repo).Some?
  {
    hide UploadTurn, Coherent, RepositoryIdentifier.FullName, Column, ObjectKey, NewRepositoryIdentifier;
    EmptyIsCoherent();
    TurnEffect(EMPTY, c, repo, obj, NO_FAULTS);
    assert forall o :: CellOf(EMPTY, o) == Cell(None, None);
  }

  /** A row that is there keeps its size, whatever the batch does. */
  lemma SizeStays(w: World, c: CallContext, repo: Repo, objects: seq<RequestObject>, fs: seq<Faults>, oid: string)
    requires |fs| == |objects| && Coherent(w) && oid in w.rows
    ensures var rows := Upload(w, c, repo, objects, fs).0.rows; oid in rows && rows[oid].size == w.rows[oid].size
  {
    hide WorldInv, UploadAll;
    BatchesKeepInvariant(w, c, Some(repo), DEFAULT_HASH_ALGORITHM, objects, fs);
  }

  lemma {:induction false} EmptyReachesAll(repo: Repo, objects: seq<RequestObject>, i: nat)
    requires i < |objects|
    ensures Reached(EMPTY, repo, objects, objects[i].oid)
    decreases |objects|
  {
    if i > 0 {
      EmptyReachesAll(repo, objects[1..], i - 1);
    }
  }

  /** The first object that gives an oid a second size. */
  lemma {:induction false} FirstClash(objects: seq<RequestObject>) returns (i: nat, j: nat)
    requires !OneSizeEach(objects)
    ensures i < j < |objects| && objects[i].oid == objects[j].oid && objects[i].size != objects[j].size
    ensures OneSizeEach(objects[..j])
    decreases |objects|
  {
    var n := |objects| - 1;
    assert forall k :: 0 <= k < n ==> objects[..n][k] == objects[k];
    if OneSizeEach(objects[..n]) {
      forall x, y | 0 <= x < n && 0 <= y < n && objects[x].oid == objects[y].oid
        ensures objects[x].size == objects[y].size
      {
        assert objects[..n][x] == objects[x] && objects[..n][y] == objects[y];
      }
      j := n;
      var a, b :| 0 <= a < |objects| && 0 <= b < |objects| && objects[a].oid == objects[b].oid &&
        objects[a].size != objects[b].size;
      i := if a == n then b else a;
    } else {
      i, j := FirstClash(objects[..n]);
      assert objects[..n][..j] == objects[..j];
    }
  }

  lemma {:induction false} FirstOther(objects: seq<RequestObject>) returns (j: nat)
    requires !OneObject(objects)
    ensures 0 < j < |objects| && objects[j] != objects[0] && forall i :: 0 <= i < j ==> objects[i] == objects[0]
    decreases |objects|
  {
    var n := |objects| - 1;
    if OneObject(objects[..n]) {
      assert forall i :: 0 <= i < n ==> objects[..n][i] == objects[i];
      j := n;
    } else {
      j := FirstOther(objects[..n]);
    }
  }

  /** Two sizes for one oid: a clean attempt keeps the first, a broken one can keep the second. */
  lemma TwoSizesDiverge(c: CallContext, repo: Repo, objects: seq<RequestObject>) returns (attempt: seq<Faults>)
    requires WellFormed(objects) && FitsColumn(repo) && !OneSizeEach(objects)
    ensures |attempt| == |objects| && !Converges(EMPTY, c, repo, objects, [attempt])
  {
    hide UploadTurn, Coherent, FitsColumn, Settled, Upload;
    var i, j := FirstClash(objects);
    var n, oid := |objects|, objects[j].oid;
    attempt := AllBut(j, n);
    OnlyOneRegistered(c, repo, objects, j);
    RegisteredCells(c, repo, objects[j]);
    SizeStays(Registered(c, repo, objects[j]), c, repo, objects, NoFaults(n), oid);
    CleanAttemptKeepsFirstSize(c, repo, objects, i, j);
  }

  lemma CleanAttemptKeepsFirstSize(c: CallContext, repo: Repo, objects: seq<RequestObject>, i: nat, j: nat)
    requires WellFormed(objects) && FitsColumn(repo) && i < j < |objects| && OneSizeEach(objects[..j])
    ensures var rows := Upload(EMPTY, c, repo, objects, NoFaults(|objects|)).0.rows;
      objects[i].oid in rows && rows[objects[i].oid].size == objects[i].size
  {
    hide UploadTurn, Coherent, FitsColumn, UploadAll, Column, RepositoryIdentifier.FullName, ObjectKey;
    var n, oid, xs, ys := |objects|, objects[i].oid, objects[..j], objects[j..];
    assert xs[i] == objects[i];
    EmptyIsCoherent();
    var size := SizesOf(xs);
    FaultFreeSettles(EMPTY, c, repo, xs, size);
    EmptyReachesAll(repo, xs, i);
    var w1 := Upload(EMPTY, c, repo, xs, NoFaults(j)).0;
    assert CellOf(w1, oid).row == Some(FreshRow(oid, objects[i].size));
    AttemptKeepsCoherent(EMPTY, c, repo, xs, NoFaults(j), size);
    SizeStays(w1, c, repo, ys, NoFaults(n - j), oid);
    assert objects == xs + ys && NoFaults(n) == NoFaults(j) + NoFaults(n - j);
    UploadAllAppend(EMPTY, c, Some(repo), DEFAULT_HASH_ALGORITHM, xs, ys, NoFaults(j), NoFaults(n - j));
  }

  lemma AttemptKeepsCoherent(w: World, c: CallContext, repo: Repo, objects: seq<RequestObject>, fs: seq<Faults>,
                             size: map<string, nat>)
    requires Coherent(w) && WellFormed(objects) && OneSize(objects, size) && FitsColumn(repo) && |fs| == |objects|
    ensures Coherent(Upload(w, c, repo, objects, fs).0)
  {
    hide Upload, Coherent, FitsColumn;
    AttemptIsBetween(w, c, repo, objects, fs, size);
  }

  /** A name that is not stored as it is, and two different objects: some attempt gets further with
      the later one than a clean attempt does, or a clean one further than it. */
  lemma TwoObjectsDiverge(c: CallContext, repo: Repo, objects: seq<RequestObject>) returns (attempt: seq<Faults>)
    requires WellFormed(objects) && !FitsColumn(repo) && !OneObject(objects)
    ensures |attempt| == |objects| && !Converges(EMPTY, c, repo, objects, [attempt])
  {
    hide Converges;
    var j := FirstOther(objects);
    var n := |objects|;
    if j == 1 && objects[1].oid != objects[0].oid && PolicyText(repo).Some? {
      attempt := AllBut(0, n);
      CleanAttemptGetsFurther(c, repo, objects);
    } else {
      attempt := AllBut(j, n);
      BrokenAttemptGetsFurther(c, repo, objects, j);
    }
  }

  lemma CleanAttemptGetsFurther(c: CallContext, repo: Repo, objects: seq<RequestObject>)
    requires WellFormed(objects) && |objects| > 1 && objects[1].oid != objects[0].oid && CutOff(repo.FullName())
    ensures !Converges(EMPTY, c, repo, objects, [AllBut(0, |objects|)])
  {
    hide UploadTurn, Coherent, Upload, Column, RepositoryIdentifier.FullName, AllBut, Registered;
    var n, w1 := |objects|, Registered(c, repo, objects[0]);
    RegisteredCells(c, repo, objects[0]);
    OnlyOneRegistered(c, repo, objects, 0);
    DeniedAtOnce(w1, c, repo, objects);
    SecondIsRegistered(c, repo, objects);
    assert CellOf(Upload(w1, c, repo, objects, NoFaults(n)).0, objects[1].oid) == Cell(None, None);
  }

  lemma BrokenAttemptGetsFurther(c: CallContext, repo: Repo, objects: seq<RequestObject>, j: nat)
    requires WellFormed(objects) && 0 < j < |objects| && objects[j] != objects[0] && !FitsColumn(repo)
    requires objects[j].oid != objects[0].oid && PolicyText(repo).Some? ==> objects[1] == objects[0]
    ensures !Converges(EMPTY, c, repo, objects, [AllBut(j, |objects|)])
  {
    hide UploadTurn, Coherent, Upload, Column, RepositoryIdentifier.FullName, AllBut, Registered;
    var n, w1, oid := |objects|, Registered(c, repo, objects[j]), objects[j].oid;
    RegisteredCells(c, repo, objects[0]);
    RegisteredCells(c, repo, objects[j]);
    OnlyOneRegistered(c, repo, objects, j);
    SizeStays(w1, c, repo, objects, NoFaults(n), oid);
    CleanAttemptBegins(c, repo, objects);
    var once := Upload(EMPTY, c, repo, objects, NoFaults(n)).0;
    if oid != objects[0].oid {
      if PolicyText(repo).Some? {
        SecondIsDenied(c, repo, objects);
      }
      assert CellOf(once, oid) == Cell(None, None);
    }
  }

  /** The clean attempt registers the first object, and stops there if the name is refused. */
  lemma CleanAttemptBegins(c: CallContext, repo: Repo, objects: seq<RequestObject>)
    requires WellFormed(objects) && objects != []
    ensures var w1, w := Registered(c, repo, objects[0]), Upload(EMPTY, c, repo, objects, NoFaults(|objects|)).0;
      && objects[0].oid in w.rows && w.rows[objects[0].oid].size == objects[0].size
      && (PolicyText(repo).None? ==> w == w1)
      && (PolicyText(repo).Some? ==> w == Upload(w1, c, repo, objects[1..], NoFaults(|objects| - 1)).0)
  {
    hide UploadTurn, Coherent, Column, RepositoryIdentifier.FullName, ObjectKey;
    RegisteredCells(c, repo, objects[0]);
    assert NoFaults(|objects|)[1..] == NoFaults(|objects| - 1);
    SizeStays(Registered(c, repo, objects[0]), c, repo, objects[1..], NoFaults(|objects| - 1), objects[0].oid);
  }

  /** A batch whose first object belongs to somebody else changes no other object. */
  lemma DeniedAtOnce(w: World, c: CallContext, repo: Repo, objects: seq<RequestObject>)
    requires Coherent(w) && WellFormed(objects) && objects != [] && Denied(CellOf(w, objects[0].oid), repo)
    ensures OnlyChanges(w, Upload(w, c, repo, objects, NoFaults(|objects|)).0, objects[0].oid)
  {
    hide UploadTurn, Coherent, CellOf, Denied;
    TurnEffect(w, c, repo, objects[0], NO_FAULTS);
  }

  /** The first object twice, under a name that is cut off: the clean attempt stops at the second. */
  lemma SecondIsDenied(c: CallContext, repo: Repo, objects: seq<RequestObject>)
    requires WellFormed(objects) && |objects| > 1 && objects[1] == objects[0] && CutOff(repo.FullName())
    ensures var w := Upload(EMPTY, c, repo, objects, NoFaults(|objects|)).0;
      forall o :: o != objects[0].oid ==> CellOf(w, o) == Cell(None, None)
  {
    hide UploadTurn, Coherent, Upload, Column, RepositoryIdentifier.FullName;
    RegisteredCells(c, repo, objects[0]);
    CleanAttemptBegins(c, repo, objects);
    assert objects[1..][0] == objects[0];
    DeniedAtOnce(Registered(c, repo, objects[0]), c, repo, objects[1..]);
  }

  /** Two objects, under a name that is cut off: the clean attempt gets to the second one. */
  lemma SecondIsRegistered(c: CallContext, repo: Repo, objects: seq<RequestObject>)
    requires WellFormed(objects) && |objects| > 1 && objects[1].oid != objects[0].oid && PolicyText(repo).Some?
    ensures objects[1].oid in Upload(EMPTY, c, repo, objects, NoFaults(|objects|)).0.rows
  {
    hide UploadTurn, Coherent, Column, RepositoryIdentifier.FullName, ObjectKey, NewRepositoryIdentifier;
    var w1, rest := Registered(c, repo, objects[0]), objects[1..];
    RegisteredCells(c, repo, objects[0]);
    CleanAttemptBegins(c, repo, objects);
    TurnEffect(w1, c, repo, rest[0], NO_FAULTS);
    var w2 := UploadTurn(w1, c, Some(repo), DEFAULT_HASH_ALGORITHM, rest[0], NO_FAULTS).0;
    assert CellOf(w2, rest[0].oid).row.Some?;
    SizeStays(w2, c, repo, rest[1..], NoFaults(|rest| - 1), rest[0].oid);
    assert NoFaults(|rest|)[1..] == NoFaults(|rest| - 1);
  }

  // ---------- exactly when ----------

  /** Retrying an upload batch after any broken attempts ends where one clean attempt ends, from every
      coherent state of the stores, if and only if the batch gives no oid two sizes and, unless it
      only repeats one object, the repository's name is stored as it is. */
  lemma RetriesConvergeExactlyWhen(repo: Repo, objects: seq<RequestObject>)
    requires WellFormed(objects)
    ensures AlwaysConverges(repo, objects) <==> RetrySafe(repo, objects)
  {
    hide Coherent, Converges, FitsColumn;
    forall w, c, attempts | Coherent(w) && OnePerObject(attempts, objects) && RetrySafe(repo, objects)
      ensures Converges(w, c, repo, objects, attempts)
    {
      if OneObject(objects) {
        OneObjectConverges(w, c, repo, objects, attempts);
      } else {
        var size := SizesOf(objects);
        RetriesConverge(w, c, repo, objects, attempts, size);
      }
    }
    if !RetrySafe(repo, objects) {
      EmptyIsCoherent();
      var attempt: seq<Faults>;
      if FitsColumn(repo) {
        attempt := TwoSizesDiverge(NO_CONTEXT, repo, objects);
      } else {
        assert !OneObject(objects);
        attempt := TwoObjectsDiverge(NO_CONTEXT, repo, objects);
      }
      assert OnePerObject([attempt], objects);
    }
  }

  /** So among the batches with one size per oid all are safe exactly for the names that are stored as
      they are. */
  lemma RetriesConvergeExactlyWhenTheNameFits(repo: Repo)
    ensures (forall objects :: WellFormed(objects) && OneSizeEach(objects) ==> AlwaysConverges(repo, objects)) <==>
            FitsColumn(repo)
  {
    hide AlwaysConverges, FitsColumn;
    forall objects | WellFormed(objects) ensures AlwaysConverges(repo, objects) <==> RetrySafe(repo, objects) {
      RetriesConvergeExactlyWhen(repo, objects);
    }
    var a: OID, b: OID := seq(64, _ => '0'), seq(64, _ => '1');
    var objects := [RequestObject(a, 0), RequestObject(b, 0)];
    assert a[0] != b[0] && objects[0] != objects[1];
    assert WellFormed(objects) && OneSizeEach(objects) && !OneObject(objects);
  }
}

// Whether the last attempt is also answered like a first one.

module RetryAnswers {
  import opened Prelude
  import opened Domain
  import opened StorageKeys
  import opened Stores
  import opened BatchApi
  import opened Service
  import opened Batch
  import opened Registration
  import opened Retry
  import opened Convergence

  /** The attempt after the broken ones gives the answers a single clean attempt gives. */
  ghost predicate AnsweredLikeTheFirst(w: World, c: CallContext, repo: Repo, objects: seq<RequestObject>,
                                       attempts: seq<seq<Faults>>)
    requires OnePerObject(attempts, objects)
  {
    var fs := NoFaults(|objects|);
    Upload(Attempts(w, c, repo, objects, attempts), c, repo, objects, fs).1 == Upload(w, c, repo, objects, fs).1
  }

  // ---------- names that are stored as they are, or refused ----------

  /** No row, or one nobody has marked: registering is still open, at any size. */
  predicate Open(row: Option<Meta>) {
    row.None? || !row.value.uploaded
  }

  /** A registration is answered alike in both cells. */
  predicate Alike(cell: Cell, now: Cell, repo: Repo) {
    && (now.row == cell.row || (Open(now.row) && Open(cell.row)))
    && Denied(now, repo) == Denied(cell, repo)
    && (Denied(cell, repo) || PolicyText(repo).None? ==> now.policy == cell.policy)
  }

  ghost predicate AllAlike(w: World, w': World, repo: Repo) {
    forall o :: Alike(CellOf(w, o), CellOf(w', o), repo)
  }

  lemma AlikeIsKept(cell: Cell, now: Cell, c: CallContext, repo: Repo, oid: OID, size: nat)
    requires Alike(cell, now, repo) && !CutOff(repo.FullName())
    ensures SettledAnswer(now, c, repo, oid, size) == SettledAnswer(cell, c, repo, oid, size)
    ensures Alike(Settled(cell, repo, oid, size), Settled(now, repo, oid, size), repo)
    ensures forall after :: PartWay(now, after, repo, oid, size) ==> Alike(cell, after, repo)
  {
    hide ObjectKey, RepositoryIdentifier.FullName, Column, NewRepositoryIdentifier, NewAction;
  }

  lemma {:induction false} AttemptKeepsAlike(v: World, w: World, c: CallContext, repo: Repo,
                                             objects: seq<RequestObject>, fs: seq<Faults>)
    requires Coherent(w) && WellFormed(objects) && |fs| == |objects|
    requires !CutOff(repo.FullName()) && AllAlike(v, w, repo)
    ensures var w' := Upload(w, c, repo, objects, fs).0; Coherent(w') && AllAlike(v, w', repo)
    decreases |objects|
  {
    hide UploadTurn, Coherent, CellOf, Alike, PartWay, CutOff;
    if objects != [] {
      var obj := objects[0];
      var (w1, r1) := UploadTurn(w, c, Some(repo), DEFAULT_HASH_ALGORITHM, obj, fs[0]);
      TurnEffect(w, c, repo, obj, fs[0]);
      AlikeIsKept(CellOf(v, obj.oid), CellOf(w, obj.oid), c, repo, obj.oid, obj.size);
      assert AllAlike(v, w1, repo);
      if r1.Ok? {
        AttemptKeepsAlike(v, w1, c, repo, objects[1..], fs[1..]);
      }
    }
  }

  lemma {:induction false} AttemptsKeepAlike(v: World, w: World, c: CallContext, repo: Repo,
                                             objects: seq<RequestObject>, attempts: seq<seq<Faults>>)
    requires Coherent(w) && WellFormed(objects) && OnePerObject(attempts, objects)
    requires !CutOff(repo.FullName()) && AllAlike(v, w, repo)
    ensures var w' := Attempts(w, c, repo, objects, attempts); Coherent(w') && AllAlike(v, w', repo)
    decreases |attempts|
  {
    hide Upload, Coherent, AllAlike, CutOff;
    if attempts != [] {
      AttemptKeepsAlike(v, w, c, repo, objects, attempts[0]);
      AttemptsKeepAlike(v, Upload(w, c, repo, objects, attempts[0]).0, c, repo, objects, attempts[1..]);
    }
  }

  lemma {:induction false} AlikeIsAnsweredAlike(v: World, w: World, c: CallContext, repo: Repo,
                                                objects: seq<RequestObject>)
    requires Coherent(v) && Coherent(w) && WellFormed(objects) && !CutOff(repo.FullName()) && AllAlike(v, w, repo)
    ensures Upload(w, c, repo, objects, NoFaults(|objects|)).1 == Upload(v, c, repo, objects, NoFaults(|objects|)).1
    decreases |objects|
  {
    hide UploadTurn, Coherent, CellOf, Alike, Settled, SettledAnswer, CutOff;
    if objects != [] {
      var obj, rest := objects[0], objects[1..];
      assert NoFaults(|objects|)[1..] == NoFaults(|rest|);
      TurnEffect(v, c, repo, obj, NO_FAULTS);
      TurnEffect(w, c, repo, obj, NO_FAULTS);
      AlikeIsKept(CellOf(v, obj.oid), CellOf(w, obj.oid), c, repo, obj.oid, obj.size);
      var (v1, r) := UploadTurn(v, c, Some(repo), DEFAULT_HASH_ALGORITHM, obj, NO_FAULTS);
      var w1 := UploadTurn(w, c, Some(repo), DEFAULT_HASH_ALGORITHM, obj, NO_FAULTS).0;
      assert AllAlike(v1, w1, repo);
      if r.Ok? {
        AlikeIsAnsweredAlike(v1, w1, c, repo, rest);
      }
    }
  }

  /** Unless the repository's name is cut off, the attempt after any broken ones is answered like a
      single clean attempt, for every batch, whatever sizes it gives and whether or not the tables end
      alike. */
  lemma RetriesAreAnsweredAlike(w: World, c: CallContext, repo: Repo, objects: seq<RequestObject>,
                                attempts: seq<seq<Faults>>)
    requires Coherent(w) && WellFormed(objects) && OnePerObject(attempts, objects) && !CutOff(repo.FullName())
    ensures AnsweredLikeTheFirst(w, c, repo, objects, attempts)
  {
    hide Coherent, Upload, CutOff;
    AttemptsKeepAlike(w, w, c, repo, objects, attempts);
    AlikeIsAnsweredAlike(w, Attempts(w, c, repo, objects, attempts), c, repo, objects);
  }

  // ---------- names that are cut off ----------

  /** The answers to `n` registrations of one object, from its cell. */
  function Repeated(cell: Cell, c: CallContext, repo: Repo, oid: OID, size: nat, n: nat): Answers
    decreases n
  {
    if n == 0 then Ok([])
    else
      match SettledAnswer(cell, c, repo, oid, size)
      case Err(e) => Err(e)
      case Ok(resp) =>
        var rest := Repeated(Settled(cell, repo, oid, size), c, repo, oid, size, n - 1);
        if rest.Ok? then Ok([resp] + rest.value) else rest
  }

  lemma {:induction false} UploadRepeats(w: World, c: CallContext, repo: Repo, obj: RequestObject,
                                         objects: seq<RequestObject>)
    requires Coherent(w) && ValidOID(obj.oid) && obj.size >= 0
    requires forall i :: 0 <= i < |objects| ==> objects[i] == obj
    ensures Upload(w, c, repo, objects, NoFaults(|objects|)).1 ==
            Repeated(CellOf(w, obj.oid), c, repo, obj.oid, obj.size, |objects|)
    decreases |objects|
  {
    hide UploadTurn, Coherent, CellOf, Settled, SettledAnswer;
    if objects != [] {
      TurnEffect(w, c, repo, obj, NO_FAULTS);
      assert NoFaults(|objects|)[1..] == NoFaults(|objects[1..]|);
      UploadRepeats(UploadTurn(w, c, Some(repo), DEFAULT_HASH_ALGORITHM, obj, NO_FAULTS).0, c, repo, obj, objects[1..]);
    }
  }

  /** From the second registration on it makes no difference how far an earlier attempt got: the
      object is denied, or it was in conflict all along. */
  lemma RepeatedFromStage(cell: Cell, now: Cell, c: CallContext, repo: Repo, oid: OID, size: nat, n: nat)
    requires CutOff(repo.FullName()) && (cell.policy.Some? ==> Denied(cell, repo)) && n != 1
    requires Stage(cell, now, repo, oid, size)
    ensures Repeated(now, c, repo, oid, size, n) == Repeated(cell, c, repo, oid, size, n)
  {
    hide ObjectKey, RepositoryIdentifier.FullName, Column, NewRepositoryIdentifier, NewAction;
    if n > 1 && NeedsPolicy(cell, size) {
      var settled := Settled(cell, repo, oid, size);
      assert Denied(settled, repo) && Settled(now, repo, oid, size) == settled;
      assert Repeated(settled, c, repo, oid, size, n) == Err(SettledAnswer(settled, c, repo, oid, size).error);
      assert Repeated(settled, c, repo, oid, size, n - 1) == Err(SettledAnswer(settled, c, repo, oid, size).error);
    }
  }

  lemma NotOwnedByCutOff(w: World, repo: Repo, oid: string)
    requires Coherent(w) && CutOff(repo.FullName())
    ensures CellOf(w, oid).policy.Some? ==> Denied(CellOf(w, oid), repo)
  {
    hide RepositoryIdentifier.FullName, Column;
  }

  lemma RepeatsAreAnsweredAlike(w: World, c: CallContext, repo: Repo, objects: seq<RequestObject>,
                                attempts: seq<seq<Faults>>)
    requires Coherent(w) && WellFormed(objects) && OneObject(objects) && OnePerObject(attempts, objects)
    requires CutOff(repo.FullName()) && |objects| > 1
    ensures AnsweredLikeTheFirst(w, c, repo, objects, attempts)
  {
    hide Coherent, Upload, CutOff, CellOf, Stage;
    var obj := objects[0];
    var cell, w1 := CellOf(w, obj.oid), Attempts(w, c, repo, objects, attempts);
    StageBegins(cell, repo, obj.oid, obj.size);
    AttemptsAreStages(w, c, repo, obj, objects, attempts, cell);
    NotOwnedByCutOff(w, repo, obj.oid);
    UploadRepeats(w, c, repo, obj, objects);
    UploadRepeats(w1, c, repo, obj, objects);
    RepeatedFromStage(cell, CellOf(w1, obj.oid), c, repo, obj.oid, obj.size, |objects|);
  }

  lemma StageBegins(cell: Cell, repo: Repo, oid: OID, size: nat)
    ensures Stage(cell, cell, repo, oid, size)
  {
  }

  /** A single object under a name that is cut off: its first attempt succeeds, and the next one is
      denied. */
  lemma SingleObjectIsDenied(c: CallContext, repo: Repo, obj: RequestObject)
    requires ValidOID(obj.oid) && obj.size >= 0 && CutOff(repo.FullName())
    ensures !AnsweredLikeTheFirst(EMPTY, c, repo, [obj], [NoFaults(1)])
  {
    hide Coherent, UploadTurn, RepositoryIdentifier.FullName, Column, ObjectKey, NewRepositoryIdentifier;
    RegisteredCells(c, repo, obj);
    UploadOne(EMPTY, c, repo, obj, NO_FAULTS);
    var w1 := Registered(c, repo, obj);
    UploadOne(w1, c, repo, obj, NO_FAULTS);
    TurnEffect(w1, c, repo, obj, NO_FAULTS);
    assert NoFaults(1) == [NO_FAULTS] && [NoFaults(1)][1..] == [];
    assert Attempts(EMPTY, c, repo, [obj], [NoFaults(1)]) == w1;
  }

  // ---------- exactly when ----------

  ghost predicate AlwaysConvergesInFull(repo: Repo, objects: seq<RequestObject>) {
    forall w, c, attempts :: Coherent(w) && OnePerObject(attempts, objects) ==>
      Converges(w, c, repo, objects, attempts) && AnsweredLikeTheFirst(w, c, repo, objects, attempts)
  }

  /** Tables and answers: retrying any broken attempts ends exactly as one clean attempt ends, and is
      answered like it, if and only if the batch can be retried safely for its tables and is not a
      single object under a name that is cut off. */
  lemma RetriesConvergeInFullExactlyWhen(repo: Repo, objects: seq<RequestObject>)
    requires WellFormed(objects)
    ensures AlwaysConvergesInFull(repo, objects) <==>
            RetrySafe(repo, objects) && !(CutOff(repo.FullName()) && |objects| == 1)
  {
    hide Coherent, Converges, AnsweredLikeTheFirst, FitsColumn, CutOff, RetrySafe;
    RetriesConvergeExactlyWhen(repo, objects);
    if RetrySafe(repo, objects) && !(CutOff(repo.FullName()) && |objects| == 1) {
      forall w, c, attempts | Coherent(w) && OnePerObject(attempts, objects)
        ensures Converges(w, c, repo, objects, attempts) && AnsweredLikeTheFirst(w, c, repo, objects, attempts)
      {
        SafeIsAnsweredAlike(w, c, repo, objects, attempts);
      }
    } else if RetrySafe(repo, objects) {
      EmptyIsCoherent();
      SingleObjectIsDenied(NO_CONTEXT, repo, objects[0]);
      assert objects == [objects[0]] && OnePerObject([NoFaults(1)], objects);
    }
  }

  lemma SafeIsAnsweredAlike(w: World, c: CallContext, repo: Repo, objects: seq<RequestObject>,
                            attempts: seq<seq<Faults>>)
    requires Coherent(w) && WellFormed(objects) && OnePerObject(attempts, objects)
    requires RetrySafe(repo, objects) && !(CutOff(repo.FullName()) && |objects| == 1)
    ensures AnsweredLikeTheFirst(w, c, repo, objects, attempts)
  {
    hide Coherent, RepositoryIdentifier.FullName, Column, UploadAll;
    if !CutOff(repo.FullName()) {
      RetriesAreAnsweredAlike(w, c, repo, objects, attempts);
    } else if objects == [] {
      NothingToAttempt(w, c, repo, attempts);
    } else {
      RepeatsAreAnsweredAlike(w, c, repo, objects, attempts);
    }
  }
}
