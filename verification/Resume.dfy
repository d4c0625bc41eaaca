/**
 `TaskScheduler::init`: the scheduler a worker starts from, what it resumes after
 and what it fetches.
 */
module Resume {
  import opened Wrappers
  import opened IpldModel
  import opened Inputs
  import opened Workflows
  import opened Schedules
  import opened Database
  import opened Scheduler

  type Fetch = set<Resource> -> Result<map<Resource, seq<Byte>>, FetchError>

  /** The schedule split after the last batch that hits, or not at all. */
  ghost predicate Resumes(
    t: Tables, schedule: seq<seq<Vertex>>, indexed: map<Cid, seq<Resource>>, up: nat -> bool, s: TaskScheduler)
  {
    match s.ran
    case Some(ran) =>
      && ran != [] && ran + s.run == schedule
      && Hit(t, ran[|ran| - 1], indexed, up(|ran| - 1))
      && (forall b :: 0 <= b < |s.run| ==> !Hit(t, s.run[b], indexed, up(|ran| + b)))
      && Linked(t, ran[|ran| - 1], s.linkmap)
      && s.resumeStep == if s.run == [] then None else Some(|ran|)
    case None =>
      && s.run == schedule && s.linkmap == map[] && s.resumeStep == None
      && (forall b :: 0 <= b < |s.run| ==> !Hit(t, s.run[b], indexed, up(b)))
  }

  /** Number of the pivot batch, from which on resources are fetched. */
  function From(s: TaskScheduler): nat {
    if s.ran.Some? && s.ran.value != [] then |s.ran.value| - 1 else 0
  }

  function WantedIn(pairs: seq<Pair>): set<Resource> {
    set k | 0 <= k < |pairs| :: pairs[k].1
  }

  method Init(db: Db, graph: ExecutionGraph, up: nat -> bool, fetch: Fetch)
    returns (r: Result<TaskScheduler, FetchError>, ghost wanted: set<Resource>, ghost rows: seq<seq<Receipt>>)
    requires db.Valid()
    ensures r.Ok? ==> fetch(wanted) == Ok(r.value.resources)
    ensures r.Err? ==> fetch(wanted).Err?
    ensures r.Ok? ==> Resumes(db.View(), graph.schedule, graph.resources, up, r.value)
    ensures r.Ok? ==> Looked(db.View(), graph.schedule, graph.resources, up, From(r.value), rows)
    ensures r.Ok? ==> wanted == WantedIn(Scanned(graph.schedule, graph.resources, rows, From(r.value)))
  {
    var schedule := graph.schedule;
    var pivot, linkmap, pairs;
    pivot, linkmap, pairs, rows := Scan(db, schedule, graph.resources, up);
    var asked := WantedIn(pairs);
    wanted := asked;
    match fetch(asked)
    case Err(e) => r := Err(e);
    case Ok(fetched) =>
      match pivot
      case None => r := Ok(TaskScheduler(linkmap, None, schedule, None, fetched));
      case Some(p) =>
        var idx := p + 1;
        var step := if idx >= |schedule| || idx == 0 then None else Some(idx);
        SplitResumes(db.View(), schedule, graph.resources, up, p, linkmap, fetched);
        r := Ok(TaskScheduler(linkmap, Some(schedule[..idx]), schedule[idx..], step, fetched));
  }

  lemma SplitResumes(
    t: Tables, schedule: seq<seq<Vertex>>, indexed: map<Cid, seq<Resource>>, up: nat -> bool, p: nat,
    linkmap: map<Cid, InstructionResult<Arg>>, fetched: map<Resource, seq<Byte>>)
    requires p < |schedule| && Hit(t, schedule[p], indexed, up(p)) && Linked(t, schedule[p], linkmap)
    requires forall b :: p < b < |schedule| ==> !Hit(t, schedule[b], indexed, up(b))
    ensures var step := if p + 1 >= |schedule| then None else Some(p + 1);
            Resumes(t, schedule, indexed, up,
                    TaskScheduler(linkmap, Some(schedule[..p + 1]), schedule[p + 1..], step, fetched))
  {
    var run := schedule[p + 1..];
    forall b | 0 <= b < |run| ensures !Hit(t, run[b], indexed, up(p + 1 + b)) {
      assert run[b] == schedule[p + 1 + b];
    }
  }

  lemma WantedIs(pairs: seq<Pair>, r: Resource)
    ensures r in WantedIn(pairs) <==> exists c :: (c, r) in pairs
  {
    if r in WantedIn(pairs) {
      var k :| 0 <= k < |pairs| && pairs[k].1 == r;
      assert (pairs[k].0, r) == pairs[k];
    }
    if c :| (c, r) in pairs {
      var k :| 0 <= k < |pairs| && pairs[k] == (c, r);
      assert pairs[k].1 == r;
    }
  }

  /**
   Every task from the pivot on that no receipt is found for has all its resources fetched, and
   nothing is fetched that belongs to earlier batches only.
   */
  lemma FetchCoverage(
    t: Tables, schedule: seq<seq<Vertex>>, indexed: map<Cid, seq<Resource>>, up: nat -> bool, from: nat,
    rows: seq<seq<Receipt>>)
    requires Keyed(t) && from <= |schedule| && Looked(t, schedule, indexed, up, from, rows)
    ensures forall b, k, c, r ::
              from <= b && SitsCid(schedule, b, k, c) && AllIndexed(schedule[b], indexed) && Spared(t, schedule, up, b, c) ==>
                (r in indexed[c] ==> r in WantedIn(Scanned(schedule, indexed, rows, from)))
    ensures forall r :: r in WantedIn(Scanned(schedule, indexed, rows, from)) ==>
              exists c :: InFrom(schedule, from, c) && c in indexed && r in indexed[c]
  {
    var pairs := Scanned(schedule, indexed, rows, from);
    ScannedIs(t, schedule, indexed, up, from, rows);
    forall b, k, c, r | from <= b && SitsCid(schedule, b, k, c) && AllIndexed(schedule[b], indexed)
                        && Spared(t, schedule, up, b, c) && r in indexed[c]
      ensures r in WantedIn(pairs)
    {
      WantedIs(pairs, r);
      assert (c, r) in pairs;
    }
    forall r | r in WantedIn(pairs) ensures exists c :: InFrom(schedule, from, c) && c in indexed && r in indexed[c] {
      WantedIs(pairs, r);
      var c :| (c, r) in pairs;
      assert InFrom(schedule, from, (c, r).0);
    }
  }

  /** Every task of the run has its resources that satisfy `p` fetched. */
  ghost predicate AllFetched(
    run: seq<seq<Vertex>>, indexed: map<Cid, seq<Resource>>, wanted: set<Resource>, p: Resource -> bool)
  {
    forall c, r :: InFrom(run, 0, c) && c in indexed && r in indexed[c] && p(r) ==> r in wanted
  }

  // ---------------------------------------------------------------------------
  // What counting receipts means
  // ---------------------------------------------------------------------------

  /** Every task of the batch has a receipt. */
  ghost predicate Receipted(t: Tables, batch: seq<Vertex>) {
    forall k :: 0 <= k < |batch| ==> HasInstruction(t, batch[k].cid)
  }

  /** Exactly one stored receipt is for the instruction. */
  ghost predicate OneReceipt(t: Tables, c: Cid) {
    |ReceiptsFor(t, c)| == 1
  }

  ghost predicate AtMostOne(t: Tables, c: Cid) {
    |ReceiptsFor(t, c)| <= 1
  }

  lemma ReceiptsAre(t: Tables, c: Cid)
    ensures HasInstruction(t, c) <==> |ReceiptsFor(t, c)| >= 1
    ensures AtMostOne(t, c) <==> forall k, k' :: k in ReceiptsFor(t, c) && k' in ReceiptsFor(t, c) ==> k == k'
  {
    var mine := ReceiptsFor(t, c);
    if HasInstruction(t, c) {
      var k :| k in t.receipts && t.receipts[k].instruction == c;
      assert k in mine;
      assert |mine - {k}| == |mine| - 1;
      if AtMostOne(t, c) {
        assert mine - {k} == {};
        assert forall k' :: k' in mine ==> k' !in mine - {k};
      }
      if forall k, k' :: k in mine && k' in mine ==> k == k' { assert mine == {k}; }
    } else {
      assert mine == {};
    }
  }

  ghost predicate DistinctBatch(batch: seq<Vertex>) {
    forall i, j :: 0 <= i < j < |batch| ==> batch[i].cid != batch[j].cid
  }

  lemma MatchingMore(t: Tables, front: seq<Vertex>, v: Vertex)
    requires v.cid !in Cids(front)
    ensures |Matching(t, front + [v])| == |Matching(t, front)| + |ReceiptsFor(t, v.cid)|
  {
    assert Cids(front + [v]) == Cids(front) + [v.cid];
    assert Matching(t, front + [v]) == Matching(t, front) + ReceiptsFor(t, v.cid);
    assert Matching(t, front) !! ReceiptsFor(t, v.cid);
  }

  /**
   What the count tells of a batch of distinct tasks, whatever the table holds. It accepts a
   finished batch if and only if each task has exactly one receipt; a finished batch is
   refused when a task has two. Where no task has two, it accepts exactly the finished batches.
   */
  lemma {:induction false} CountingExactly(t: Tables, batch: seq<Vertex>)
    requires DistinctBatch(batch)
    ensures Receipted(t, batch) ==> |Matching(t, batch)| >= |batch|
    ensures Receipted(t, batch) && |Matching(t, batch)| == |batch|
            <==> forall k :: 0 <= k < |batch| ==> OneReceipt(t, batch[k].cid)
    ensures (forall k :: 0 <= k < |batch| ==> AtMostOne(t, batch[k].cid)) ==>
              |Matching(t, batch)| <= |batch| && (|Matching(t, batch)| == |batch| <==> Receipted(t, batch))
  {
    if batch == [] {
      assert Matching(t, batch) == {};
    } else {
      var front, last := batch[..|batch| - 1], batch[|batch| - 1];
      CountingExactly(t, front);
      assert batch == front + [last] && forall k :: 0 <= k < |front| ==> front[k] == batch[k];
      forall k | 0 <= k < |front| ensures Cids(front)[k] != last.cid { assert front[k] == batch[k]; }
      MatchingMore(t, front, last);
      ReceiptsAre(t, last.cid);
      assert Receipted(t, batch) <==> Receipted(t, front) && HasInstruction(t, last.cid);
      assert (forall k :: 0 <= k < |batch| ==> OneReceipt(t, batch[k].cid))
        <==> (forall k :: 0 <= k < |front| ==> OneReceipt(t, front[k].cid)) && OneReceipt(t, last.cid);
      assert (forall k :: 0 <= k < |batch| ==> AtMostOne(t, batch[k].cid))
        <==> (forall k :: 0 <= k < |front| ==> AtMostOne(t, front[k].cid)) && AtMostOne(t, last.cid);
    }
  }

  ghost function ReceiptCount(t: Tables, batch: seq<Vertex>): nat {
    if batch == [] then 0
    else ReceiptCount(t, batch[..|batch| - 1]) + |ReceiptsFor(t, batch[|batch| - 1].cid)|
  }

  lemma {:induction false} CountsReceipts(t: Tables, batch: seq<Vertex>)
    requires DistinctBatch(batch)
    ensures |Matching(t, batch)| == ReceiptCount(t, batch)
  {
    if batch == [] {
      assert Matching(t, batch) == {};
    } else {
      var front, last := batch[..|batch| - 1], batch[|batch| - 1];
      CountsReceipts(t, front);
      forall k | 0 <= k < |front| ensures Cids(front)[k] != last.cid { assert front[k] == batch[k]; }
      MatchingMore(t, front, last);
      assert batch == front + [last];
    }
  }

  /**
   A batch of distinct tasks is taken for finished exactly when it was looked up and its tasks
   have as many receipts as there are tasks: for a finished one, one each; where no task has two,
   exactly when it is finished.
   */
  lemma HitExactly(t: Tables, batch: seq<Vertex>, indexed: map<Cid, seq<Resource>>, up: bool)
    requires DistinctBatch(batch)
    ensures Hit(t, batch, indexed, up) <==>
            up && (forall k :: 0 <= k < |batch| ==> batch[k].cid in indexed) && ReceiptCount(t, batch) == |batch|
    ensures Hit(t, batch, indexed, up) && Receipted(t, batch) <==>
            && up && (forall k :: 0 <= k < |batch| ==> batch[k].cid in indexed)
            && (forall k :: 0 <= k < |batch| ==> OneReceipt(t, batch[k].cid))
    ensures (forall k :: 0 <= k < |batch| ==> AtMostOne(t, batch[k].cid)) ==>
              (Hit(t, batch, indexed, up) <==>
               up && (forall k :: 0 <= k < |batch| ==> batch[k].cid in indexed) && Receipted(t, batch))
  {
    CountsReceipts(t, batch);
    CountingExactly(t, batch);
  }

  /** With a second receipt for one instruction, the count can pass for a batch that is not receipted. */
  lemma CountingMiscounts(a: Vertex, b: Vertex, r: Receipt, r': Receipt)
    requires a.cid != b.cid && r.cid != r'.cid && r.instruction == r'.instruction == a.cid
    ensures var t := Tables(map[r.cid := r, r'.cid := r'], {}, {});
            |Matching(t, [a, b])| == |[a, b]| && !Receipted(t, [a, b])
  {
    var t := Tables(map[r.cid := r, r'.cid := r'], {}, {});
    assert Cids([a, b]) == [a.cid, b.cid];
    assert Matching(t, [a, b]) == {r.cid, r'.cid};
    assert [a, b][1].cid == b.cid;
  }

  /** No task of the schedule has two receipts; of other instructions nothing is asked. */
  ghost predicate OneReceiptEach(t: Tables, schedule: seq<seq<Vertex>>) {
    forall b, k :: 0 <= b < |schedule| && 0 <= k < |schedule[b]| ==> AtMostOne(t, schedule[b][k].cid)
  }

  lemma HitIsReceipted(
    t: Tables, schedule: seq<seq<Vertex>>, indexed: map<Cid, seq<Resource>>, up: nat -> bool, b: nat)
    requires DistinctTasks(schedule) && OneReceiptEach(t, schedule) && b < |schedule|
    ensures Hit(t, schedule[b], indexed, up(b)) <==> up(b) && AllIndexed(schedule[b], indexed) && Receipted(t, schedule[b])
  {
    forall i, j | 0 <= i < j < |schedule[b]| ensures schedule[b][i].cid != schedule[b][j].cid {
      assert SitsCid(schedule, b, i, schedule[b][i].cid) && SitsCid(schedule, b, j, schedule[b][j].cid);
    }
    CountingExactly(t, schedule[b]);
  }

  lemma LinksExactly(t: Tables, pivot: seq<Vertex>, linkmap: map<Cid, InstructionResult<Arg>>)
    requires Linked(t, pivot, linkmap) && Receipted(t, pivot)
    ensures forall c :: c in linkmap <==> c in Cids(pivot)
  {
    forall c | c in Cids(pivot) ensures HasInstruction(t, c) {
      var k :| 0 <= k < |pivot| && Cids(pivot)[k] == c;
    }
  }

  /** The batch was looked up: its tasks are indexed and the database answered. */
  ghost predicate Asked(schedule: seq<seq<Vertex>>, indexed: map<Cid, seq<Resource>>, up: nat -> bool, b: int) {
    0 <= b < |schedule| && up(b) && AllIndexed(schedule[b], indexed)
  }

  /**
   The pivot is the last batch looked up whose tasks all have receipts; the linkmap holds
   exactly its tasks, and no batch left to run that was looked up is fully receipted.
   */
  lemma PivotCorrectness(
    t: Tables, schedule: seq<seq<Vertex>>, indexed: map<Cid, seq<Resource>>, up: nat -> bool, s: TaskScheduler)
    requires Resumes(t, schedule, indexed, up, s) && DistinctTasks(schedule) && OneReceiptEach(t, schedule)
    ensures var n := if s.ran.Some? then |s.ran.value| else 0;
            && (forall b :: n <= b && Asked(schedule, indexed, up, b) ==> !Receipted(t, schedule[b]))
            && (n > 0 ==> Asked(schedule, indexed, up, n - 1) && Receipted(t, schedule[n - 1])
                          && forall c :: c in s.linkmap <==> c in Cids(schedule[n - 1]))
  {
    var n := if s.ran.Some? then |s.ran.value| else 0;
    forall b | n <= b && Asked(schedule, indexed, up, b) ensures !Receipted(t, schedule[b]) {
      assert s.run[b - n] == schedule[b] && !Hit(t, s.run[b - n], indexed, up(b));
      HitIsReceipted(t, schedule, indexed, up, b);
    }
    if s.ran.Some? {
      assert s.ran.value[n - 1] == schedule[n - 1];
      HitIsReceipted(t, schedule, indexed, up, n - 1);
      LinksExactly(t, schedule[n - 1], s.linkmap);
    }
  }
}
