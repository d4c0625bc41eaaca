/**
 The runner's tables: workers by workflow CID, their abort handles, and the queue of
 expiration timers. A timer's key is freed when the timer fires or is removed, and
 may then be handed out again.
 */
module Runner {
  import opened IpldModel

  /** A running worker and the key of its timer. */
  datatype Tracked = Tracked(handle: nat, key: nat)

  /** What the runner keeps: `queue` maps the key of each live timer to a workflow. */
  datatype Tables = Tables(
    workers: map<Cid, Tracked>,
    tasks: map<Cid, seq<nat>>,
    queue: map<nat, Cid>,
    aborted: set<nat>)

  const EMPTY: Tables := Tables(map[], map[], map[], {})

  /**
   Steps of the event loop. In a collection, `taskDone`, `first` and `second` are the
   handles found finished by the pass over the tasks and by the two passes over the
   workers; what has finished stays finished.
   */
  datatype Step =
    | RunWorker(cid: Cid, handle: nat, key: nat)
    | Spawn(cid: Cid, handles: seq<nat>)
    | Collect(taskDone: set<nat>, first: set<nat>, second: set<nat>)
    | Dropped(cid: Cid)
    | Expire(key: nat)
    | AbortAll
    | Cleanup

  function KeepRunning(hs: seq<nat>, done: set<nat>): seq<nat> {
    if hs == [] then [] else (if hs[0] in done then [] else [hs[0]]) + KeepRunning(hs[1..], done)
  }

  /** The keys of the timers the first pass of a collection removes. */
  ghost function KeysOf(workers: map<Cid, Tracked>, done: set<nat>): set<nat> {
    set c | c in workers && workers[c].handle in done :: workers[c].key
  }

  function Handles(tasks: map<Cid, seq<nat>>, c: Cid): set<nat> {
    if c in tasks then set h | h in tasks[c] else {}
  }

  ghost function Collected(s: Tables, taskDone: set<nat>, first: set<nat>, second: set<nat>): Tables {
    s.(tasks := map c | c in s.tasks && KeepRunning(s.tasks[c], taskDone) != [] :: KeepRunning(s.tasks[c], taskDone),
       queue := s.queue - KeysOf(s.workers, first),
       workers := map c | c in s.workers && s.workers[c].handle !in second :: s.workers[c])
  }

  /** `abort_worker`: nothing happens for a workflow that is not tracked. */
  function Aborted(s: Tables, c: Cid): Tables {
    if c !in s.workers then s
    else s.(workers := s.workers - {c}, queue := s.queue - {s.workers[c].key}, tasks := s.tasks - {c},
            aborted := s.aborted + {s.workers[c].handle} + Handles(s.tasks, c))
  }

  /** The timer queue hands out a key that is not live; a timer that fires is live. */
  predicate Enabled(s: Tables, step: Step) {
    match step
    case RunWorker(_, _, key) => key !in s.queue
    case Collect(_, first, second) => first <= second
    case Expire(key) => key in s.queue
    case _ => true
  }

  ghost function Apply(s: Tables, step: Step): Tables
    requires Enabled(s, step)
  {
    match step
    case RunWorker(c, handle, key) => s.(queue := s.queue[key := c], workers := s.workers[c := Tracked(handle, key)])
    case Spawn(c, hs) => s.(tasks := s.tasks[c := (if c in s.tasks then s.tasks[c] else []) + hs])
    case Collect(taskDone, first, second) => Collected(s, taskDone, first, second)
    case Dropped(c) => Aborted(s, c)
    case Expire(key) => Aborted(s.(queue := s.queue - {key}), s.queue[key])
    case AbortAll =>
      s.(aborted := s.aborted + (set c | c in s.workers :: s.workers[c].handle)
                    + (set c, h | c in s.tasks && h in s.tasks[c] :: h))
    case Cleanup => s.(workers := map[], queue := map[], tasks := map[])
  }

  // ---------------------------------------------------------------------------
  // Timer safety
  // ---------------------------------------------------------------------------

  /** Each tracked worker's key is live and is the timer of its own workflow. */
  ghost predicate Safe(s: Tables) {
    forall c :: c in s.workers ==> s.workers[c].key in s.queue && s.queue[s.workers[c].key] == c
  }

  /** Workflows whose timers a step may end. */
  ghost predicate MayEnd(s: Tables, step: Step, c: Cid)
    requires Enabled(s, step)
  {
    match step
    case Dropped(d) => c == d
    case Expire(key) => c == s.queue[key]
    case Collect(_, first, _) => c in s.workers && s.workers[c].handle in first
    case Cleanup => true
    case _ => false
  }

  /** Every step keeps timers safe, and ends no timer but those of the workflows it is about. */
  lemma SafeStep(s: Tables, step: Step)
    requires Safe(s) && Enabled(s, step)
    ensures Safe(Apply(s, step))
    ensures forall k :: k in s.queue && k !in Apply(s, step).queue ==> MayEnd(s, step, s.queue[k])
    ensures forall k :: k in s.queue && k in Apply(s, step).queue ==> Apply(s, step).queue[k] == s.queue[k]
  {
    match step
    case Collect(taskDone, first, second) =>
      var s' := Apply(s, step);
      forall c | c in s'.workers ensures s'.workers[c].key in s'.queue {
        assert s.workers[c].key !in KeysOf(s.workers, first);
      }
      forall k | k in s.queue && k !in s'.queue ensures MayEnd(s, step, s.queue[k]) {
        var c :| c in s.workers && s.workers[c].handle in first && s.workers[c].key == k;
        assert s.queue[k] == c;
      }
    case Expire(key) =>
      var s' := Apply(s, step);
      forall c | c in s'.workers ensures s'.workers[c].key in s'.queue {
        assert c != s.queue[key];
      }
    case _ =>
  }

  ghost predicate CanRun(s: Tables, steps: seq<Step>)
    decreases |steps|
  {
    steps == [] || (Enabled(s, steps[0]) && CanRun(Apply(s, steps[0]), steps[1..]))
  }

  ghost function RunAll(s: Tables, steps: seq<Step>): Tables
    requires CanRun(s, steps)
    decreases |steps|
  {
    if steps == [] then s else RunAll(Apply(s, steps[0]), steps[1..])
  }

  /** Timer safety over every run of the event loop. */
  lemma {:induction false} AlwaysSafe(s: Tables, steps: seq<Step>)
    requires Safe(s) && CanRun(s, steps)
    ensures Safe(RunAll(s, steps))
    decreases |steps|
  {
    if steps != [] {
      SafeStep(s, steps[0]);
      AlwaysSafe(Apply(s, steps[0]), steps[1..]);
    }
  }

  // ---------------------------------------------------------------------------
  // One timer for each worker
  // ---------------------------------------------------------------------------

  /** Live timers and tracked workers correspond one to one. */
  ghost predicate Matched(s: Tables) {
    && Safe(s)
    && forall k :: k in s.queue ==> s.queue[k] in s.workers && s.workers[s.queue[k]].key == k
  }

  /** The step reruns a tracked workflow, or a worker finishes between the two passes of a collection. */
  ghost predicate Leaks(s: Tables, step: Step) {
    match step
    case RunWorker(c, _, _) => c in s.workers
    case Collect(_, first, second) => exists c :: c in s.workers && s.workers[c].handle in second - first
    case _ => false
  }

  /** A step breaks the correspondence exactly when it leaks a timer. */
  lemma MatchedExactly(s: Tables, step: Step)
    requires Matched(s) && Enabled(s, step)
    ensures Matched(Apply(s, step)) <==> !Leaks(s, step)
  {
    SafeStep(s, step);
    var s' := Apply(s, step);
    match step
    case RunWorker(c, handle, key) =>
      if c in s.workers {
        var k := s.workers[c].key;
        assert k in s'.queue && s'.queue[k] == c && s'.workers[c].key != k;
      }
    case Collect(_, first, second) =>
      if Leaks(s, step) {
        var c :| c in s.workers && s.workers[c].handle in second - first;
        var k := s.workers[c].key;
        assert k !in KeysOf(s.workers, first) by {
          forall d | d in s.workers && s.workers[d].handle in first ensures s.workers[d].key != k {
            assert d != c;
          }
        }
        assert k in s'.queue && s'.queue[k] == c && c !in s'.workers;
      } else {
        forall k | k in s'.queue ensures s'.queue[k] in s'.workers && s'.workers[s'.queue[k]].key == k {
          var c := s.queue[k];
          assert s.workers[c].handle in first ==> k in KeysOf(s.workers, first);
        }
      }
    case _ =>
  }

  ghost predicate LeaksNothing(s: Tables, steps: seq<Step>)
    requires CanRun(s, steps)
    decreases |steps|
  {
    steps == [] || (!Leaks(s, steps[0]) && LeaksNothing(Apply(s, steps[0]), steps[1..]))
  }

  /** Without leaks, timers and workers correspond over every run. */
  lemma {:induction false} AlwaysMatched(s: Tables, steps: seq<Step>)
    requires Matched(s) && CanRun(s, steps) && LeaksNothing(s, steps)
    ensures Matched(RunAll(s, steps))
    decreases |steps|
  {
    if steps != [] {
      MatchedExactly(s, steps[0]);
      AlwaysMatched(Apply(s, steps[0]), steps[1..]);
    }
  }

  /**
   What a leaked timer does: rerunning a tracked workflow leaves its first timer live,
   and when that timer fires it aborts the second run, whose own timer is not due.
   */
  lemma LeakedTimerAborts(s: Tables, c: Cid, handle: nat, key: nat)
    requires Safe(s) && c in s.workers && key !in s.queue
    ensures var stale := s.workers[c].key;
            var rerun := Apply(s, RunWorker(c, handle, key));
            && Enabled(rerun, Expire(stale)) && stale != key
            && var after := Apply(rerun, Expire(stale));
               c !in after.workers && handle in after.aborted && key !in after.queue
  {
  }

  /**
   A worker that ends says only which workflow it ran. If the workflow was rerun before the
   message is handled, it is the rerun that is aborted, with the tasks it has started.
   */
  lemma LateDropAborts(s: Tables, c: Cid, handle: nat, key: nat, tasks: seq<nat>)
    requires Safe(s) && c in s.workers && key !in s.queue
    ensures var rerun := Apply(Apply(s, RunWorker(c, handle, key)), Spawn(c, tasks));
            var after := Apply(rerun, Dropped(c));
            && c !in after.workers && key !in after.queue
            && handle in after.aborted && forall h :: h in tasks ==> h in after.aborted
  {
  }

  /** Step `k` is the last that runs the workflow. */
  ghost predicate LastRun(steps: seq<Step>, c: Cid, k: int) {
    && 0 <= k < |steps| && steps[k].RunWorker? && steps[k].cid == c
    && forall j :: k < j < |steps| ==> !(steps[j].RunWorker? && steps[j].cid == c)
  }

  /** A workflow that is tracked is tracked as it was run last. */
  lemma {:induction false} TrackedIs(s: Tables, steps: seq<Step>, c: Cid)
    requires CanRun(s, steps) && c in RunAll(s, steps).workers
    ensures forall k :: LastRun(steps, c, k) ==> RunAll(s, steps).workers[c] == Tracked(steps[k].handle, steps[k].key)
    ensures (forall k :: !LastRun(steps, c, k)) ==> c in s.workers && RunAll(s, steps).workers[c] == s.workers[c]
    decreases |steps|
  {
    if steps != [] {
      var rest, mid := steps[1..], Apply(s, steps[0]);
      TrackedIs(mid, rest, c);
      forall k | LastRun(steps, c, k) && k > 0 ensures LastRun(rest, c, k - 1) {
        assert forall j :: 0 <= j < |rest| ==> rest[j] == steps[j + 1];
      }
      if forall k :: !LastRun(rest, c, k) {
        assert steps[0].RunWorker? && steps[0].cid == c ==> LastRun(steps, c, 0) by {
          if steps[0].RunWorker? && steps[0].cid == c { NoRuns(rest, c, 0); }
        }
      } else {
        var k :| LastRun(rest, c, k);
        assert forall j :: 0 <= j < |rest| ==> rest[j] == steps[j + 1];
        assert LastRun(steps, c, k + 1);
      }
    }
  }

  /** If no step is the last to run the workflow, none runs it. */
  lemma {:induction false} NoRuns(steps: seq<Step>, c: Cid, from: nat)
    requires from <= |steps| && forall k :: !LastRun(steps, c, k)
    ensures forall j :: from <= j < |steps| ==> !(steps[j].RunWorker? && steps[j].cid == c)
    decreases |steps| - from
  {
    if from < |steps| {
      NoRuns(steps, c, from + 1);
      assert !LastRun(steps, c, from);
    }
  }

  /**
   A worker of the workflow was run, other steps followed, and then its message that it ended
   is handled. The message aborts another worker if and only if a later run of the workflow,
   under another handle, is still tracked.
   */
  lemma LateDropExactly(s: Tables, c: Cid, handle: nat, key: nat, steps: seq<Step>)
    requires key !in s.queue && CanRun(Apply(s, RunWorker(c, handle, key)), steps)
    ensures var end := RunAll(Apply(s, RunWorker(c, handle, key)), steps);
            && (c in end.workers && end.workers[c].handle != handle
                <==> c in end.workers && exists k :: LastRun(steps, c, k) && steps[k].handle != handle)
            && (c in end.workers ==> end.workers[c].handle in Apply(end, Dropped(c)).aborted)
            && (c !in end.workers ==> Apply(end, Dropped(c)) == end)
  {
    var start := Apply(s, RunWorker(c, handle, key));
    if c in RunAll(start, steps).workers { TrackedIs(start, steps, c); }
  }

  // ---------------------------------------------------------------------------
  // Where every handle is
  // ---------------------------------------------------------------------------

  /** The handles the runner can still abort. */
  ghost function Live(s: Tables): set<nat> {
    (set c | c in s.workers :: s.workers[c].handle) + (set c, h | c in s.tasks && h in s.tasks[c] :: h)
  }

  ghost function Started(step: Step): set<nat> {
    match step
    case RunWorker(_, handle, _) => {handle}
    case Spawn(_, handles) => set h | h in handles
    case _ => {}
  }

  ghost function Ended(step: Step): set<nat> {
    match step
    case Collect(taskDone, _, second) => taskDone + second
    case _ => {}
  }

  /** The handle a rerun of a tracked workflow overwrites. */
  ghost function Replaced(s: Tables, step: Step): set<nat> {
    match step
    case RunWorker(c, _, _) => if c in s.workers then {s.workers[c].handle} else {}
    case _ => {}
  }

  /** Tables are cleaned up only after everything in them was aborted. */
  ghost predicate Orderly(s: Tables, step: Step) {
    step.Cleanup? ==> Live(s) <= s.aborted
  }

  lemma {:induction false} KeptRunning(hs: seq<nat>, done: set<nat>, h: nat)
    ensures h in KeepRunning(hs, done) <==> h in hs && h !in done
  {
    if hs != [] {
      KeptRunning(hs[1..], done, h);
      assert h in hs <==> h == hs[0] || h in hs[1..];
    }
  }

  lemma CollectLoses(s: Tables, taskDone: set<nat>, first: set<nat>, second: set<nat>, h: nat)
    requires h in Live(s)
    ensures h in Live(Collected(s, taskDone, first, second)) || h in taskDone + second
  {
    var s' := Collected(s, taskDone, first, second);
    if c :| c in s.workers && s.workers[c].handle == h {
      assert h !in second ==> c in s'.workers && s'.workers[c].handle == h;
    } else {
      var c :| c in s.tasks && h in s.tasks[c];
      KeptRunning(s.tasks[c], taskDone, h);
      assert h !in taskDone ==> c in s'.tasks && h in s'.tasks[c];
    }
  }

  lemma CollectAdds(s: Tables, taskDone: set<nat>, first: set<nat>, second: set<nat>, h: nat)
    requires h in Live(Collected(s, taskDone, first, second))
    ensures h in Live(s)
  {
    var s' := Collected(s, taskDone, first, second);
    if c :| c in s'.workers && s'.workers[c].handle == h {
      assert c in s.workers && s.workers[c].handle == h;
    } else {
      var c :| c in s'.tasks && h in s'.tasks[c];
      KeptRunning(s.tasks[c], taskDone, h);
      assert c in s.tasks && h in s.tasks[c];
    }
  }

  /**
   What a collection leaves: the workers the second pass does not find finished, every timer but
   those of workers the first pass finds finished, and the tasks not found finished, without
   workflows that have none left.
   */
  ghost predicate Collects(s: Tables, s': Tables, taskDone: set<nat>, first: set<nat>, second: set<nat>) {
    && (forall c :: c in s'.workers <==> c in s.workers && s.workers[c].handle !in second)
    && (forall c :: c in s'.workers ==> s'.workers[c] == s.workers[c])
    && (forall c :: c in s.workers && s.workers[c].handle in first ==> s.workers[c].key !in s'.queue)
    && (forall k :: k in s.queue && k !in s'.queue ==> s.queue[k] in s.workers && s.workers[s.queue[k]].handle in first)
    && (forall k :: k in s'.queue ==> k in s.queue && s'.queue[k] == s.queue[k])
    && (forall c, h :: c in s'.tasks && h in s'.tasks[c] <==> c in s.tasks && h in s.tasks[c] && h !in taskDone)
    && (forall c :: c in s'.tasks ==> s'.tasks[c] != [])
    && s'.aborted == s.aborted
  }

  lemma LeavesExactly(s: Tables, taskDone: set<nat>, first: set<nat>, second: set<nat>)
    requires Safe(s) && first <= second
    ensures Collects(s, Apply(s, Collect(taskDone, first, second)), taskDone, first, second)
  {
    var step := Collect(taskDone, first, second);
    var s' := Apply(s, step);
    SafeStep(s, step);
    forall c, h
      ensures c in s'.tasks && h in s'.tasks[c] <==> c in s.tasks && h in s.tasks[c] && h !in taskDone
    {
      if c in s.tasks { KeptRunning(s.tasks[c], taskDone, h); }
    }
  }

  /** The passes of a collection see all of these handles that are in the tables. */
  ghost predicate Sees(s: Tables, taskDone: set<nat>, second: set<nat>, ended: set<nat>) {
    && (forall c :: c in s.workers && s.workers[c].handle in ended ==> s.workers[c].handle in second)
    && (forall c, h :: c in s.tasks && h in s.tasks[c] && h in ended ==> h in taskDone)
  }

  /** The handles left are those of workers and tasks that were not found finished. */
  lemma LeftAre(s: Tables, taskDone: set<nat>, first: set<nat>, second: set<nat>, h: nat)
    requires Safe(s) && first <= second
    ensures h in Live(Apply(s, Collect(taskDone, first, second)))
       <==> || (h !in second && exists c :: c in s.workers && s.workers[c].handle == h)
            || (h !in taskDone && exists c :: c in s.tasks && h in s.tasks[c])
  {
    LeavesExactly(s, taskDone, first, second);
    var s' := Apply(s, Collect(taskDone, first, second));
    if h !in second {
      if c :| c in s.workers && s.workers[c].handle == h { assert c in s'.workers && s'.workers[c].handle == h; }
    }
    if h !in taskDone {
      if c :| c in s.tasks && h in s.tasks[c] { assert c in s'.tasks && h in s'.tasks[c]; }
    }
  }

  /** After a collection nothing that ended can be aborted any more, exactly when it saw all that ended. */
  lemma ForgetsExactly(s: Tables, taskDone: set<nat>, first: set<nat>, second: set<nat>, ended: set<nat>)
    requires Safe(s) && first <= second
    ensures Live(Apply(s, Collect(taskDone, first, second))) !! ended <==> Sees(s, taskDone, second, ended)
  {
    var left := Live(Apply(s, Collect(taskDone, first, second)));
    forall h
      ensures h in left <==> || (h !in second && exists c :: c in s.workers && s.workers[c].handle == h)
                             || (h !in taskDone && exists c :: c in s.tasks && h in s.tasks[c])
    {
      LeftAre(s, taskDone, first, second, h);
    }
  }

  lemma LiveFrom(s: Tables, step: Step)
    requires Enabled(s, step)
    ensures Live(Apply(s, step)) <= Live(s) + Started(step)
  {
    match step
    case RunWorker(_, _, _) => StartsOne(s, step);
    case Spawn(_, _) => StartsOne(s, step);
    case Collect(taskDone, first, second) =>
      forall h | h in Live(Apply(s, step)) ensures h in Live(s) { CollectAdds(s, taskDone, first, second, h); }
    case Dropped(c) => AbortMoves(s, c);
    case Expire(key) =>
      assert Live(s.(queue := s.queue - {key})) == Live(s);
      AbortMoves(s.(queue := s.queue - {key}), s.queue[key]);
    case AbortAll => assert Live(Apply(s, step)) == Live(s);
    case Cleanup => assert Live(Apply(s, step)) == {};
  }

  lemma {:induction false} LiveComes(s: Tables, steps: seq<Step>)
    requires CanRun(s, steps)
    ensures Live(RunAll(s, steps)) <= Live(s) + AllStarted(steps)
    decreases |steps|
  {
    if steps != [] {
      LiveFrom(s, steps[0]);
      LiveComes(Apply(s, steps[0]), steps[1..]);
    }
  }

  /**
   Whatever ran before and whatever follows: what ended before a collection that saw all that
   ended is in none of the tables afterwards, unless its handle is handed out again.
   */
  lemma CollectedForGood(before: seq<Step>, taskDone: set<nat>, first: set<nat>, second: set<nat>, ended: set<nat>,
                         after: seq<Step>)
    requires CanRun(EMPTY, before) && first <= second
    requires Sees(RunAll(EMPTY, before), taskDone, second, ended)
    requires CanRun(Apply(RunAll(EMPTY, before), Collect(taskDone, first, second)), after)
    ensures Live(RunAll(Apply(RunAll(EMPTY, before), Collect(taskDone, first, second)), after)) * ended
         <= AllStarted(after)
  {
    var s := RunAll(EMPTY, before);
    AlwaysSafe(EMPTY, before);
    ForgetsExactly(s, taskDone, first, second, ended);
    LiveComes(Apply(s, Collect(taskDone, first, second)), after);
  }

  /** What aborting a tracked workflow does, and that it touches no other. */
  ghost predicate Drops(s: Tables, s': Tables, c: Cid)
    requires c in s.workers
  {
    && c !in s'.workers && c !in s'.tasks && s.workers[c].key !in s'.queue
    && (forall d :: d != c ==> (d in s'.workers <==> d in s.workers) && (d in s'.tasks <==> d in s.tasks))
    && (forall d :: d in s'.workers ==> s'.workers[d] == s.workers[d])
    && (forall d :: d in s'.tasks ==> s'.tasks[d] == s.tasks[d])
    && (forall k :: k in s.queue && k != s.workers[c].key ==> k in s'.queue)
    && (forall k :: k in s'.queue ==> k in s.queue && s'.queue[k] == s.queue[k])
    && (forall h :: h in s'.aborted <==>
          h in s.aborted || h == s.workers[c].handle || (c in s.tasks && h in s.tasks[c]))
  }

  lemma AbortMoves(s: Tables, c: Cid)
    ensures Live(Aborted(s, c)) + Aborted(s, c).aborted == Live(s) + s.aborted
    ensures Live(Aborted(s, c)) <= Live(s)
    ensures if c in s.workers then Drops(s, Aborted(s, c), c) else Aborted(s, c) == s
  {
    if c in s.workers {
      var s' := Aborted(s, c);
      forall h | h in Live(s)
        ensures h in Live(s') + s'.aborted
      {
        if d :| d in s.workers && s.workers[d].handle == h {
          assert d != c ==> d in s'.workers && s'.workers[d].handle == h;
        } else {
          var d :| d in s.tasks && h in s.tasks[d];
          assert d != c ==> d in s'.tasks && h in s'.tasks[d];
        }
      }
      forall h | h in Live(s')
        ensures h in Live(s)
      {
        assert forall d :: d in s'.workers ==> d in s.workers && s.workers[d] == s'.workers[d];
        assert forall d :: d in s'.tasks ==> d in s.tasks && s.tasks[d] == s'.tasks[d];
      }
      assert s.workers[c].handle in Live(s);
      assert forall h :: h in Handles(s.tasks, c) ==> h in Live(s);
    }
  }

  lemma StartsOne(s: Tables, step: Step)
    requires Enabled(s, step) && (step.RunWorker? || step.Spawn?)
    ensures Live(s) + Started(step) <= Live(Apply(s, step)) + Replaced(s, step)
    ensures Live(Apply(s, step)) <= Live(s) + Started(step)
  {
    var s' := Apply(s, step);
    assert forall d :: d in s.workers && d != step.cid ==> d in s'.workers && s'.workers[d] == s.workers[d];
    assert forall d :: d in s'.workers && d != step.cid ==> d in s.workers;
    assert forall d :: d in s.tasks && d != step.cid ==> d in s'.tasks && s'.tasks[d] == s.tasks[d];
    assert forall d :: d in s'.tasks && d != step.cid ==> d in s.tasks;
    if step.RunWorker? {
      assert s'.workers[step.cid].handle == step.handle;
    } else {
      assert forall h :: h in s'.tasks[step.cid] <==> (step.cid in s.tasks && h in s.tasks[step.cid]) || h in step.handles;
    }
  }

  /** A step neither loses a handle, unless its worker or task ended or a rerun overwrites it, nor makes one up. */
  lemma HandlesKept(s: Tables, step: Step)
    requires Enabled(s, step) && Orderly(s, step)
    ensures Live(s) + s.aborted + Started(step)
         <= Live(Apply(s, step)) + Apply(s, step).aborted + Ended(step) + Replaced(s, step)
    ensures Live(Apply(s, step)) + Apply(s, step).aborted <= Live(s) + s.aborted + Started(step)
  {
    match step
    case RunWorker(_, _, _) => StartsOne(s, step);
    case Spawn(_, _) => StartsOne(s, step);
    case Collect(taskDone, first, second) =>
      forall h | h in Live(s) ensures h in Live(Apply(s, step)) + Ended(step) { CollectLoses(s, taskDone, first, second, h); }
      forall h | h in Live(Apply(s, step)) ensures h in Live(s) { CollectAdds(s, taskDone, first, second, h); }
    case Dropped(c) => AbortMoves(s, c);
    case Expire(key) =>
      assert Live(s.(queue := s.queue - {key})) == Live(s);
      AbortMoves(s.(queue := s.queue - {key}), s.queue[key]);
    case AbortAll => assert Live(Apply(s, step)) == Live(s);
    case Cleanup => assert Live(Apply(s, step)) == {};
  }

  ghost predicate AllOrderly(s: Tables, steps: seq<Step>)
    requires CanRun(s, steps)
    decreases |steps|
  {
    steps == [] || (Orderly(s, steps[0]) && AllOrderly(Apply(s, steps[0]), steps[1..]))
  }

  ghost function AllStarted(steps: seq<Step>): set<nat> {
    if steps == [] then {} else Started(steps[0]) + AllStarted(steps[1..])
  }

  ghost function AllEnded(steps: seq<Step>): set<nat> {
    if steps == [] then {} else Ended(steps[0]) + AllEnded(steps[1..])
  }

  ghost function AllReplaced(s: Tables, steps: seq<Step>): set<nat>
    requires CanRun(s, steps)
    decreases |steps|
  {
    if steps == [] then {} else Replaced(s, steps[0]) + AllReplaced(Apply(s, steps[0]), steps[1..])
  }

  /**
   Over every run, each handle the runner was given can still be aborted, was
   aborted, belongs to something that ended, or was overwritten by a rerun; and it aborts
   nothing it was not given.
   */
  lemma {:induction false} NothingLost(s: Tables, steps: seq<Step>)
    requires CanRun(s, steps) && AllOrderly(s, steps)
    ensures var end := RunAll(s, steps);
            && Live(s) + s.aborted + AllStarted(steps)
               <= Live(end) + end.aborted + AllEnded(steps) + AllReplaced(s, steps)
            && Live(end) + end.aborted <= Live(s) + s.aborted + AllStarted(steps)
    decreases |steps|
  {
    if steps != [] {
      HandlesKept(s, steps[0]);
      NothingLost(Apply(s, steps[0]), steps[1..]);
    }
  }

  /** What a rerun overwrites is never aborted after it, in any continuation. */
  lemma RerunOrphans(s: Tables, c: Cid, handle: nat, key: nat, steps: seq<Step>)
    requires c in s.workers && key !in s.queue
    requires var rerun := Apply(s, RunWorker(c, handle, key));
             CanRun(rerun, steps) && AllOrderly(rerun, steps)
    requires var first := s.workers[c].handle;
             && first != handle && first !in s.aborted && first !in AllStarted(steps)
             && (forall d :: d in s.workers && s.workers[d].handle == first ==> d == c)
             && (forall d :: d in s.tasks ==> first !in s.tasks[d])
    ensures s.workers[c].handle !in RunAll(Apply(s, RunWorker(c, handle, key)), steps).aborted
  {
    NothingLost(Apply(s, RunWorker(c, handle, key)), steps);
  }

  /** Shutting down aborts everything that was started, has not ended and was not overwritten. */
  lemma ShutdownAborts(steps: seq<Step>)
    requires CanRun(EMPTY, steps) && AllOrderly(EMPTY, steps)
    ensures var end := RunAll(EMPTY, steps);
            AllStarted(steps) - AllEnded(steps) - AllReplaced(EMPTY, steps) <= Apply(end, AbortAll).aborted
  {
    NothingLost(EMPTY, steps);
  }

  // ---------------------------------------------------------------------------
  // The runner itself
  // ---------------------------------------------------------------------------

  class Runner {
    var workers: map<Cid, Tracked>
    var tasks: map<Cid, seq<nat>>
    var queue: map<nat, Cid>
    var aborted: set<nat>

    ghost function View(): Tables
      reads this
    {
      Tables(workers, tasks, queue, aborted)
    }

    constructor ()
      ensures View() == EMPTY && Matched(View())
    {
      workers, tasks, queue, aborted := map[], map[], map[], {};
    }

    /** The bookkeeping of `run_worker`; `key` is what the timer queue returned. */
    method RunWorker(cid: Cid, handle: nat, key: nat)
      requires Safe(View()) && key !in queue
      modifies this
      ensures View() == Apply(old(View()), Step.RunWorker(cid, handle, key)) && Safe(View())
    {
      SafeStep(View(), Step.RunWorker(cid, handle, key));
      queue := queue[key := cid];
      workers := workers[cid := Tracked(handle, key)];
    }

    /** `append_or_insert`: the handles the runner could abort, and the new ones, and no others. */
    method AppendOrInsert(cid: Cid, handles: seq<nat>)
      requires Safe(View())
      modifies this
      ensures View() == Apply(old(View()), Spawn(cid, handles)) && Safe(View())
      ensures Live(View()) == Live(old(View())) + set h | h in handles
    {
      StartsOne(View(), Spawn(cid, handles));
      if cid in tasks {
        tasks := tasks[cid := tasks[cid] + handles];
      } else {
        tasks := tasks[cid := handles];
        assert [] + handles == handles;
      }
    }

    method Gc(taskDone: set<nat>, first: set<nat>, second: set<nat>)
      requires Safe(View()) && first <= second
      modifies this
      ensures View() == Apply(old(View()), Collect(taskDone, first, second)) && Safe(View())
      ensures Collects(old(View()), View(), taskDone, first, second)
    {
      SafeStep(View(), Collect(taskDone, first, second));
      LeavesExactly(View(), taskDone, first, second);
      tasks := map c | c in tasks && KeepRunning(tasks[c], taskDone) != [] :: KeepRunning(tasks[c], taskDone);
      queue := RemoveTimers(workers, queue, first);
      workers := map c | c in workers && workers[c].handle !in second :: workers[c];
    }

    method AbortWorker(cid: Cid)
      requires Safe(View())
      modifies this
      ensures View() == Apply(old(View()), Dropped(cid)) && Safe(View())
      ensures if cid in old(workers) then Drops(old(View()), View(), cid) else View() == old(View())
    {
      SafeStep(View(), Dropped(cid));
      Abort(cid);
    }

    /** A timer fired: it leaves the queue before the worker is aborted. */
    method OnExpired(key: nat)
      requires Safe(View()) && key in queue
      modifies this
      ensures View() == Apply(old(View()), Expire(key)) && Safe(View()) && key !in queue
      ensures var s, c := old(View()).(queue := old(queue) - {key}), old(queue[key]);
              if c in old(workers) then Drops(s, View(), c) else View() == s
    {
      SafeStep(View(), Expire(key));
      var cid := queue[key];
      queue := queue - {key};
      Abort(cid);
    }

    /** The workflow is not tracked afterwards, and each of its handles was aborted before it is let go. */
    method Abort(cid: Cid)
      modifies this
      ensures View() == Aborted(old(View()), cid)
      ensures if cid in old(workers) then Drops(old(View()), View(), cid) else View() == old(View())
      ensures Live(View()) + aborted == Live(old(View())) + old(aborted)
    {
      AbortMoves(View(), cid);
      if cid in workers {
        var entry := workers[cid];
        workers := workers - {cid};
        queue := queue - {entry.key};
        aborted := aborted + {entry.handle};
        if cid in tasks {
          aborted := aborted + set h | h in tasks[cid];
          tasks := tasks - {cid};
        }
      }
    }

    method AbortWorkers()
      requires Safe(View())
      modifies this
      ensures View() == Apply(old(View()), AbortAll) && Safe(View()) && Live(View()) <= aborted
    {
      aborted := aborted + (set c | c in workers :: workers[c].handle) + (set c, h | c in tasks && h in tasks[c] :: h);
    }

    method CleanupWorkers()
      modifies this
      ensures View() == Apply(old(View()), Cleanup) && Matched(View())
      ensures Live(View()) == {} && tasks == map[] && queue == map[] && aborted == old(aborted)
    {
      workers, queue, tasks := map[], map[], map[];
    }
  }

  /** The first pass over the workers: the timers of those found finished are removed. */
  method RemoveTimers(workers: map<Cid, Tracked>, queue: map<nat, Cid>, first: set<nat>) returns (left: map<nat, Cid>)
    ensures left == queue - KeysOf(workers, first)
  {
    left := queue;
    var todo := workers.Keys;
    ghost var seen: map<Cid, Tracked> := map[];
    while todo != {}
      invariant todo <= workers.Keys && seen.Keys == workers.Keys - todo
      invariant forall c :: c in seen ==> seen[c] == workers[c]
      invariant left == queue - KeysOf(seen, first)
      decreases todo
    {
      var c :| c in todo;
      todo := todo - {c};
      KeysOfMore(seen, c, workers[c], first);
      seen := seen[c := workers[c]];
      if workers[c].handle in first { left := left - {workers[c].key}; }
    }
    assert seen == workers;
  }

  lemma KeysOfMore(done: map<Cid, Tracked>, c: Cid, entry: Tracked, first: set<nat>)
    requires c !in done
    ensures KeysOf(done[c := entry], first) == KeysOf(done, first) + if entry.handle in first then {entry.key} else {}
  {
    var more := done[c := entry];
    forall d | d in done ensures d in more && more[d] == done[d] { }
    if entry.handle in first { assert c in more && more[c] == entry; }
  }

  /**
   The runner's loop, for any sequence of things it may be told. Its timers stay safe, one
   for each worker if nothing leaks, and no handle is lost but as `NothingLost` says.
   */
  method RunLoop(steps: seq<Step>) returns (r: Runner)
    requires CanRun(EMPTY, steps) && AllOrderly(EMPTY, steps)
    ensures r.View() == RunAll(EMPTY, steps) && Safe(r.View())
    ensures LeaksNothing(EMPTY, steps) ==> Matched(r.View())
    ensures AllStarted(steps) <= Live(r.View()) + r.aborted + AllEnded(steps) + AllReplaced(EMPTY, steps)
    ensures Live(r.View()) + r.aborted <= AllStarted(steps)
  {
    r := new Runner();
    for k := 0 to |steps|
      invariant fresh(r) && Safe(r.View()) && CanRun(r.View(), steps[k..])
      invariant RunAll(r.View(), steps[k..]) == RunAll(EMPTY, steps)
    {
      assert steps[k..][0] == steps[k] && steps[k..][1..] == steps[k + 1..];
      match steps[k] {
        case RunWorker(cid, handle, key) => r.RunWorker(cid, handle, key);
        case Spawn(cid, handles) => r.AppendOrInsert(cid, handles);
        case Collect(taskDone, first, second) => r.Gc(taskDone, first, second);
        case Dropped(cid) => r.AbortWorker(cid);
        case Expire(key) => r.OnExpired(key);
        case AbortAll => r.AbortWorkers();
        case Cleanup => r.CleanupWorkers();
      }
    }
    NothingLost(EMPTY, steps);
    if LeaksNothing(EMPTY, steps) { AlwaysMatched(EMPTY, steps); }
  }
}
