/**
 The worker's loops: batch after batch, spawning the tasks of a batch and joining
 them as they finish. What the executor and the network decide is a script; the loops
 are shown to do nothing but steps of the state machine, whatever the script.
 */
module WorkerLoop {
  import opened Wrappers
  import opened IpldModel
  import opened Inputs
  import opened Workflows
  import opened Execution
  import opened Database
  import opened Scheduler
  import opened Worker
  import opened WorkerSafety

  /** The next thing to happen while a batch is open. */
  datatype Pick =
    | Advance(task: nat, at: Path, conn: bool, query: bool, found: Option<Receipt>, commits: bool)
    | Finish(task: nat)
    | Save(ok: bool)
    | Crash(task: nat)
    | Hear(receipt: Receipt)
    | Late(receipt: Receipt, ok: bool)

  class WorkerRun {
    const job: Job
    const db: Db
    var linkmap: map<Cid, InstructionResult<Arg>>
    var running: map<nat, Running>
    var pending: Option<Receipt>
    var started: nat
    var open: bool
    var lost: bool
    var status: Status

    ghost predicate Valid()
      reads this, db
    {
      db.Valid()
    }

    ghost function View(): State
      reads this, db
    {
      State(linkmap, db.View(), running, pending, started, open, lost, status)
    }

    constructor (job: Job, db: Db, linkmap: map<Cid, InstructionResult<Arg>>)
      requires db.Valid()
      ensures this.job == job && this.db == db && Valid() && View() == Initial(linkmap, db.View())
    {
      this.job, this.db, this.linkmap := job, db, linkmap;
      running, pending, started, open, lost, status := map[], None, 0, false, false, Active;
    }

    /** Spawn the tasks of the next batch, or fail on the first module that was not fetched. */
    method StartBatch()
      requires Valid() && status == Active && !open && started < |job.run|
      modifies this
      ensures Valid() && Next(job, old(View()), Event.StartBatch) == Some(View())
      ensures status == Active ==> open && started == old(started) + 1
    {
      var batch := job.run[started];
      var spawned: map<nat, Running> := map[];
      for k := 0 to |batch|
        invariant forall j :: 0 <= j < k && batch[j].op == WASM_OP ==> RUrl(batch[j].url) in job.resources
        invariant forall j: nat :: j in spawned <==> j < k && batch[j].op == WASM_OP
        invariant forall j :: j in spawned ==> spawned[j] == Running(batch[j], job.resources[RUrl(batch[j].url)], map[])
      {
        if batch[k].op == WASM_OP {
          if RUrl(batch[k].url) !in job.resources {
            status := Failed;
            return;
          }
          spawned := spawned[k := Running(batch[k], job.resources[RUrl(batch[k].url)], map[])];
        }
      }
      assert Fetched(job, batch) && spawned == Spawned(job, batch);
      running, started, open := spawned, started + 1, true;
    }

    /** `commit_receipt`, unless the database fails. */
    method Store(r: Receipt, ok: bool) returns (done: bool)
      requires Valid()
      modifies db
      ensures Valid() && db.View() == CommitIf(job, old(db.View()), r, ok)
      ensures done == Commits(job, old(db.View()), ok)
    {
      if !ok { return false; }
      var res := db.CommitReceipt(job.workflow, r);
      done := res.Ok?;
    }

    /** One stage of a lookup; `query` says whether the database answers. */
    method ResolveCid(c: Cid, stage: Stage, conn: bool, query: bool, found: Option<Receipt>, commits: bool)
      returns (stage': Stage, ghost o: Outside)
      requires Valid() && !stage.Done? && (found.Some? ==> found.value.instruction == c)
      modifies this`linkmap, db
      ensures Valid() && o.conn == conn && o.found == found && o.commits == commits
      ensures o.row.Some? <==> stage.AtDb? && conn && query && HasInstruction(old(db.View()), c)
      ensures Worker.ResolveCid(job, old(View()), c, stage, o) == Some(LookResult(stage', linkmap, db.View()))
    {
      o := Outside(conn, None, found, commits);
      match stage {
        case AtLinkmap => stage' := if c in linkmap then Done(Some(linkmap[c])) else AtResources;
        case AtResources =>
          stage' := if RCid(c) in job.resources then Done(Some(ResOk(ArgIpld(Bytes(job.resources[RCid(c)]))))) else AtDb;
        case AtDb =>
          if !conn { return Done(None), o; }
          if query {
            var row := db.FindInstructionByCid(c);
            if row.Some? { return Done(Some(OutputAsArg(row.value))), o.(row := Some(row.value.cid)); }
          }
          stage' := AtNetwork;
        case AtNetwork =>
          match found {
            case None => stage' := Done(None);
            case Some(r) =>
              var _ := Store(r, commits);
              linkmap := InsertNew(linkmap, c, OutputAsArg(r));
              stage' := Done(Some(OutputAsArg(r)));
          }
      }
    }

    method Look(task: nat, at: Path, conn: bool, query: bool, found: Option<Receipt>, commits: bool)
      returns (ghost o: Outside)
      requires Valid() && status == Active && open && task in running
      requires LinkIn(running[task].vertex.args, at).Some? && !Answered(running[task].lookups, at)
      requires found.Some? ==> Some(found.value.instruction) == LinkIn(running[task].vertex.args, at)
      modifies this, db
      ensures Valid() && Next(job, old(View()), Event.Look(task, at, o)) == Some(View())
      ensures Leads(job, old(View()), Advance(task, at, conn, query, found, commits), Event.Look(task, at, o))
    {
      var r := running[task];
      var c := LinkIn(r.vertex.args, at).value;
      var stage;
      stage, o := ResolveCid(c, if at in r.lookups then r.lookups[at] else AtLinkmap, conn, query, found, commits);
      running := running[task := r.(lookups := r.lookups[at := stage])];
    }

    /** The task is executed; what it returns is linked and waits to be committed. */
    method Join(task: nat) returns (ghost ev: Event)
      requires Valid() && status == Active && open && task in running && pending.None? && Ready(running[task])
      modifies this
      ensures Valid() && Next(job, old(View()), ev) == Some(View()) && Leads(job, old(View()), Finish(task), ev)
    {
      var r := running[task];
      var out := Call(r);
      if out.None? {
        running, open, lost := map[], false, true;
        return Lose(task);
      }
      ev := Event.Join(task);
      running := running - {task};
      match OutputToIpld(job.world.codec, out.value) {
        case Err(_) => status := Failed;
        case Ok(o) =>
          var receipt := MakeReceipt(job.world, r.vertex, o);
          linkmap := linkmap[r.vertex.cid := OutputAsArg(receipt)];
          pending := Some(receipt);
      }
    }

    method Call(r: Running) returns (out: Option<Output>)
      ensures out == ExecuteTask(job.world, r)
    {
      var types := job.world.params(r.wasm, r.vertex.fun);
      if types.None? { return None; }
      var params := LowerParams(job.world.codec, types.value, Resolved(job.world.codec, r));
      if params.Err? { return None; }
      out := job.world.call(r.wasm, r.vertex.fun, params.value);
    }

    method CommitPending(ok: bool)
      requires Valid() && status == Active && pending.Some?
      modifies this, db
      ensures Valid() && Next(job, old(View()), Commit(ok)) == Some(View())
    {
      var done := Store(pending.value, ok);
      if done { pending := None; } else { status := Failed; }
    }

    method TryLook(task: nat, at: Path, conn: bool, query: bool, found: Option<Receipt>, commits: bool)
      returns (ghost evs: seq<Event>)
      requires Valid() && status == Active && open
      modifies this, db
      ensures Valid() && Run(job, old(View()), evs) == Some(View()) && status == Active && open
      ensures Obeys(job, old(View()), Advance(task, at, conn, query, found, commits), evs)
      ensures started == old(started)
    {
      evs := [];
      if task in running && !Answered(running[task].lookups, at) {
        var c := LinkIn(running[task].vertex.args, at);
        if c.Some? && (found.Some? ==> found.value.instruction == c.value) {
          ghost var o := Look(task, at, conn, query, found, commits);
          evs := [Event.Look(task, at, o)];
          RunOne(job, old(View()), evs);
        }
      }
    }

    /** A task is finished, if it can be: it is executed and joined, or it crashes. */
    method TryFinish(task: nat, crash: bool) returns (ghost evs: seq<Event>)
      requires Valid() && status == Active && open
      modifies this
      ensures Valid() && Run(job, old(View()), evs) == Some(View())
      ensures Obeys(job, old(View()), if crash then Crash(task) else Finish(task), evs)
      ensures started == old(started) && (status == Active ==> open || lost)
    {
      evs := [];
      if task in running && pending.None? {
        if crash {
          running, open, lost := map[], false, true;
          evs := [Lose(task)];
          RunOne(job, old(View()), evs);
        } else if Ready(running[task]) {
          ghost var ev := Join(task);
          evs := [ev];
          RunOne(job, old(View()), evs);
        }
      }
    }

    method Hear(r: Receipt)
      requires Valid()
      modifies db
      ensures Valid() && Run(job, old(View()), [Gossip(r)]) == Some(View())
    {
      var _ := db.StoreReceipt(r);
      RunOne(job, old(View()), [Gossip(r)]);
    }

    method HearLate(r: Receipt, ok: bool)
      requires Valid()
      modifies this`linkmap, db
      ensures Valid() && Run(job, old(View()), [Straggle(r, ok)]) == Some(View())
    {
      var _ := Store(r, ok);
      linkmap := InsertNew(linkmap, r.instruction, OutputAsArg(r));
      RunOne(job, old(View()), [Straggle(r, ok)]);
    }

    /** What a pick leads to: a step of the state machine, or nothing. */
    method Step(pick: Pick) returns (ghost evs: seq<Event>)
      requires Valid() && status == Active && open
      modifies this, db
      ensures Valid() && Run(job, old(View()), evs) == Some(View()) && Obeys(job, old(View()), pick, evs)
      ensures started == old(started) && (status == Active ==> open || lost)
    {
      evs := [];
      match pick {
        case Advance(task, at, conn, query, found, commits) => evs := TryLook(task, at, conn, query, found, commits);
        case Finish(task) => evs := TryFinish(task, false);
        case Crash(task) => evs := TryFinish(task, true);
        case Save(ok) =>
          if pending.Some? {
            CommitPending(ok);
            evs := [Commit(ok)];
            RunOne(job, old(View()), evs);
          }
        case Hear(r) =>
          Hear(r);
          evs := [Gossip(r)];
        case Late(r, ok) =>
          HearLate(r, ok);
          evs := [Straggle(r, ok)];
      }
    }

    /**
     Run the next batch from position `i` of the script: spawn its tasks and do what the script says until
     all are joined and committed, or one fails. It is aborted only at the end of the script.
     */
    method RunBatch(script: seq<Pick>, i: nat) returns (i': nat, ghost evs: seq<Event>)
      requires Valid() && status == Active && !open && started < |job.run| && i <= |script|
      modifies this, db
      ensures Valid() && Along(job, old(View()), script, i, i', evs, View())
      ensures status == Active ==> started == old(started) + 1 && !open
      ensures old(started) <= started <= |job.run|
    {
      ghost var st0 := View();
      StartBatch();
      evs, i' := [Event.StartBatch], i;
      AlongStart(job, st0, script, i, View());
      while status == Active && open && (running != map[] || pending.Some?)
        invariant Valid() && st0.started <= started <= |job.run|
        invariant status == Active ==> started == st0.started + 1
        invariant Along(job, st0, script, i, i', evs, View())
        decreases |script| - i', status == Active
      {
        i', evs := TakeNext(script, st0, i, i', evs);
      }
      if status == Active && open {
        ghost var last := View();
        CloseBatch();
        AlongControl(job, st0, script, i, i', evs, last, EndBatch, View());
        evs := evs + [EndBatch];
      }
    }

    /** Do what the script says next, or stop at its end. */
    method TakeNext(script: seq<Pick>, ghost st0: State, ghost i: nat, j: nat, ghost evs: seq<Event>)
      returns (j': nat, ghost evs': seq<Event>)
      requires Valid() && status == Active && open && Along(job, st0, script, i, j, evs, View())
      modifies this, db
      ensures Valid() && Along(job, st0, script, i, j', evs', View())
      ensures started == old(started) && (j' == j + 1 || (j' == j && status == Failed))
    {
      ghost var mid := View();
      if j == |script| {
        AbortRun();
        AlongControl(job, st0, script, i, j, evs, mid, Abort, View());
        return j, evs + [Abort];
      }
      ghost var more := Step(script[j]);
      AlongPick(job, st0, script, i, j, evs, mid, more, View());
      j', evs' := j + 1, evs + more;
    }

    /** The executor stops the worker. */
    method AbortRun()
      requires Valid()
      modifies this
      ensures Valid() && Run(job, old(View()), [Abort]) == Some(View()) && status == Failed && started == old(started)
    {
      RunOne(job, View(), [Abort]);
      status := Failed;
    }

    /** All tasks of the batch were joined and committed. */
    method CloseBatch()
      requires Valid() && status == Active && open && running == map[] && pending.None?
      modifies this
      ensures Valid() && Run(job, old(View()), [EndBatch]) == Some(View())
      ensures status == Active && !open && started == old(started)
    {
      RunOne(job, View(), [EndBatch]);
      open := false;
    }

    /**
     Run all batches, doing what the script says. Only when the script ends before the tasks do,
     the worker is aborted. The call returns normally exactly when the state is still active, and
     then every batch was started and closed.
     */
    method RunQueue(script: seq<Pick>) returns (i: nat, ghost evs: seq<Event>)
      requires Valid() && View() == Initial(linkmap, db.View())
      modifies this, db
      ensures Valid() && Along(job, old(View()), script, 0, i, evs, View())
      ensures status == Active ==> started == |job.run| && !open
    {
      evs, i := [], 0;
      ghost var st0 := View();
      while started < |job.run| && status == Active
        invariant Valid() && started <= |job.run|
        invariant status == Active ==> !open
        invariant Along(job, st0, script, 0, i, evs, View())
        decreases |job.run| - started, status == Active
      {
        ghost var mid, before := View(), i;
        ghost var more;
        i, more := RunBatch(script, i);
        AlongMore(job, st0, script, 0, before, evs, mid, i, more, View());
        evs := evs + more;
      }
    }
  }

  /** The event is what the pick names. */
  ghost predicate Tells(pick: Pick, ev: Event) {
    match pick
    case Advance(task, at, conn, _, found, commits) =>
      && ev.Look? && ev.task == task && ev.at == at
      && ev.outside.conn == conn && ev.outside.found == found && ev.outside.commits == commits
    case Finish(task) => ev == Join(task) || ev == Lose(task)
    case Crash(task) => ev == Lose(task)
    case Save(ok) => ev == Commit(ok)
    case Hear(r) => ev == Gossip(r)
    case Late(r, ok) => ev == Straggle(r, ok)
  }

  /** The stage the lookup is at. */
  ghost function StageOf(r: Running, at: Path): Stage {
    if at in r.lookups then r.lookups[at] else AtLinkmap
  }

  /**
   What the pick leads to in the state: a lookup that asks the database gets a row exactly when
   the query is answered and there is one, and a task that finishes is given up exactly when its
   call fails.
   */
  ghost predicate Leads(job: Job, st: State, pick: Pick, ev: Event) {
    && Tells(pick, ev)
    && (match pick
        case Advance(task, at, conn, query, _, _) =>
          && task in st.running && LinkIn(st.running[task].vertex.args, at).Some?
          && (ev.outside.row.Some? <==>
                && StageOf(st.running[task], at).AtDb? && conn && query
                && HasInstruction(st.tables, LinkIn(st.running[task].vertex.args, at).value))
        case Finish(task) => task in st.running && (ev.Lose? <==> ExecuteTask(job.world, st.running[task]).None?)
        case _ => true)
  }

  /** Nothing of what the pick names can happen in the state. */
  ghost predicate Idle(st: State, pick: Pick) {
    match pick
    case Advance(task, at, _, _, found, _) =>
      || task !in st.running || Answered(st.running[task].lookups, at)
      || LinkIn(st.running[task].vertex.args, at).None?
      || (found.Some? && LinkIn(st.running[task].vertex.args, at) != Some(found.value.instruction))
    case Finish(task) => task !in st.running || st.pending.Some? || !Ready(st.running[task])
    case Crash(task) => task !in st.running || st.pending.Some?
    case Save(_) => st.pending.None?
    case _ => false
  }

  /** One event that the pick leads to, or none where it names nothing that can happen. */
  ghost predicate Obeys(job: Job, st: State, pick: Pick, evs: seq<Event>) {
    if evs == [] then Idle(st, pick) else |evs| == 1 && Leads(job, st, pick, evs[0])
  }

  /** The events that no pick names: those of the loops themselves. */
  predicate Control(ev: Event) {
    ev.StartBatch? || ev.EndBatch? || ev.Abort?
  }

  /** Besides the events of the loops, the events are what the picks lead to, one pick after the other. */
  ghost predicate Plays(job: Job, st: State, picks: seq<Pick>, evs: seq<Event>)
    decreases |picks| + |evs|
  {
    var n, m := |picks| - 1, |evs| - 1;
    || (picks == [] && evs == [])
    || (evs != [] && Control(evs[m]) && Plays(job, st, picks, evs[..m]))
    || (picks != [] && Plays(job, st, picks[..n], evs) && Rests(job, st, evs, picks[n]))
    || (picks != [] && evs != [] && Plays(job, st, picks[..n], evs[..m]) && Goes(job, st, evs[..m], picks[n], evs[m]))
  }

  /** The script was played from `i` to `j`, the run is in the state, and it was aborted only at the end of the script. */
  ghost predicate Along(job: Job, st: State, script: seq<Pick>, i: nat, j: nat, evs: seq<Event>, mid: State) {
    && i <= j <= |script| && Run(job, st, evs) == Some(mid) && Plays(job, st, script[i..j], evs)
    && (Abort in evs ==> j == |script| && mid.status == Failed)
  }

  lemma AlongStart(job: Job, st: State, script: seq<Pick>, i: nat, mid: State)
    requires i <= |script| && Next(job, st, StartBatch) == Some(mid)
    ensures Along(job, st, script, i, i, [StartBatch], mid)
  {
    RunOne(job, st, [StartBatch]);
    assert script[i..i] == [] && [] + [StartBatch] == [StartBatch];
    PlaysControl(job, st, [], [], StartBatch);
  }

  lemma AlongControl(
    job: Job, st: State, script: seq<Pick>, i: nat, j: nat, evs: seq<Event>, mid: State, ev: Event, end: State)
    requires Along(job, st, script, i, j, evs, mid) && mid.status == Active
    requires Control(ev) && Run(job, mid, [ev]) == Some(end)
    requires ev.Abort? ==> j == |script| && end.status == Failed
    ensures Along(job, st, script, i, j, evs + [ev], end)
  {
    RunMore(job, st, mid, evs, [ev]);
    PlaysControl(job, st, script[i..j], evs, ev);
  }

  lemma AlongPick(
    job: Job, st: State, script: seq<Pick>, i: nat, j: nat, evs: seq<Event>, mid: State, more: seq<Event>, end: State)
    requires Along(job, st, script, i, j, evs, mid) && mid.status == Active && j < |script|
    requires Run(job, mid, more) == Some(end) && Obeys(job, mid, script[j], more)
    ensures Along(job, st, script, i, j + 1, evs + more, end)
  {
    RunMore(job, st, mid, evs, more);
    PlaysPick(job, st, mid, script[i..j], evs, script[j], more);
    assert script[i..j + 1] == script[i..j] + [script[j]];
    assert more != [] ==> !Control(more[0]);
  }

  ghost predicate Rests(job: Job, st: State, evs: seq<Event>, pick: Pick) {
    Run(job, st, evs).Some? && Idle(Run(job, st, evs).value, pick)
  }

  ghost predicate Goes(job: Job, st: State, evs: seq<Event>, pick: Pick, ev: Event) {
    Run(job, st, evs).Some? && Leads(job, Run(job, st, evs).value, pick, ev)
  }

  lemma PlaysControl(job: Job, st: State, picks: seq<Pick>, evs: seq<Event>, ev: Event)
    requires Control(ev) && Plays(job, st, picks, evs)
    ensures Plays(job, st, picks, evs + [ev])
  {
    assert (evs + [ev])[..|evs|] == evs;
  }

  lemma PlaysRest(job: Job, st: State, picks: seq<Pick>, evs: seq<Event>, pick: Pick)
    requires Plays(job, st, picks, evs) && Rests(job, st, evs, pick)
    ensures Plays(job, st, picks + [pick], evs)
  {
    assert (picks + [pick])[..|picks|] == picks;
  }

  lemma PlaysGo(job: Job, st: State, picks: seq<Pick>, evs: seq<Event>, pick: Pick, ev: Event)
    requires Plays(job, st, picks, evs) && Goes(job, st, evs, pick, ev)
    ensures Plays(job, st, picks + [pick], evs + [ev])
  {
    assert (picks + [pick])[..|picks|] == picks && (evs + [ev])[..|evs|] == evs;
  }

  /** One more pick, with what it leads to. */
  lemma PlaysPick(job: Job, st: State, mid: State, picks: seq<Pick>, evs: seq<Event>, pick: Pick, more: seq<Event>)
    requires Run(job, st, evs) == Some(mid) && Plays(job, st, picks, evs) && Obeys(job, mid, pick, more)
    ensures Plays(job, st, picks + [pick], evs + more)
  {
    if more == [] {
      assert evs + more == evs;
      PlaysRest(job, st, picks, evs, pick);
    } else {
      assert more == [more[0]];
      PlaysGo(job, st, picks, evs, pick, more[0]);
    }
  }

  lemma EndsWith<T>(a: seq<T>, b: seq<T>)
    requires b != []
    ensures a + b == (a + b[..|b| - 1]) + [b[|b| - 1]]
  {
  }

  /** A script played on from where another ended. */
  lemma {:induction false} PlaysMore(
    job: Job, st: State, mid: State, picks: seq<Pick>, evs: seq<Event>, picks': seq<Pick>, more: seq<Event>)
    requires Run(job, st, evs) == Some(mid) && Plays(job, st, picks, evs) && Plays(job, mid, picks', more)
    ensures Plays(job, st, picks + picks', evs + more)
    decreases |picks'| + |more|
  {
    var n, m := |picks'| - 1, |more| - 1;
    if picks' == [] && more == [] {
      assert picks + picks' == picks && evs + more == evs;
    } else if more != [] && Control(more[m]) && Plays(job, mid, picks', more[..m]) {
      PlaysMore(job, st, mid, picks, evs, picks', more[..m]);
      EndsWith(evs, more);
      PlaysControl(job, st, picks + picks', evs + more[..m], more[m]);
    } else if picks' != [] && Plays(job, mid, picks'[..n], more) && Rests(job, mid, more, picks'[n]) {
      PlaysMore(job, st, mid, picks, evs, picks'[..n], more);
      EndsWith(picks, picks');
      MoreRests(job, st, mid, picks + picks'[..n], evs, more, picks'[n]);
    } else {
      PlaysMore(job, st, mid, picks, evs, picks'[..n], more[..m]);
      EndsWith(picks, picks');
      EndsWith(evs, more);
      MoreGoes(job, st, mid, picks + picks'[..n], evs, more[..m], picks'[n], more[m]);
    }
  }

  lemma MoreRests(job: Job, st: State, mid: State, picks: seq<Pick>, evs: seq<Event>, more: seq<Event>, pick: Pick)
    requires Run(job, st, evs) == Some(mid) && Rests(job, mid, more, pick) && Plays(job, st, picks, evs + more)
    ensures Plays(job, st, picks + [pick], evs + more)
  {
    RunMore(job, st, mid, evs, more);
    PlaysRest(job, st, picks, evs + more, pick);
  }

  lemma MoreGoes(job: Job, st: State, mid: State, picks: seq<Pick>, evs: seq<Event>, more: seq<Event>, pick: Pick, ev: Event)
    requires Run(job, st, evs) == Some(mid) && Goes(job, mid, more, pick, ev) && Plays(job, st, picks, evs + more)
    ensures Plays(job, st, picks + [pick], (evs + more) + [ev])
  {
    RunMore(job, st, mid, evs, more);
    PlaysGo(job, st, picks, evs + more, pick, ev);
  }

  lemma AlongMore(
    job: Job, st: State, script: seq<Pick>, i: nat, j: nat, evs: seq<Event>, mid: State, j': nat, more: seq<Event>,
    end: State)
    requires Along(job, st, script, i, j, evs, mid) && mid.status == Active && Along(job, mid, script, j, j', more, end)
    ensures Along(job, st, script, i, j', evs + more, end)
  {
    RunMore(job, st, mid, evs, more);
    PlaysMore(job, st, mid, script[i..j], evs, script[j..j'], more);
    assert script[i..j'] == script[i..j] + script[j..j'];
  }

  /** What comes from outside was told by one of the picks. */
  lemma {:induction false} PlaysTold(job: Job, st: State, picks: seq<Pick>, evs: seq<Event>)
    requires Plays(job, st, picks, evs)
    ensures ToldBy(picks, evs)
    decreases |picks| + |evs|
  {
    var n, m := |picks| - 1, |evs| - 1;
    if evs != [] && Control(evs[m]) && Plays(job, st, picks, evs[..m]) {
      PlaysTold(job, st, picks, evs[..m]);
      ToldMore(picks, evs[..m], picks, evs);
    } else if picks != [] && Plays(job, st, picks[..n], evs) && Rests(job, st, evs, picks[n]) {
      PlaysTold(job, st, picks[..n], evs);
      ToldMore(picks[..n], evs, picks, evs);
    } else if picks != [] {
      PlaysTold(job, st, picks[..n], evs[..m]);
      assert Tells(picks[n], evs[m]);
      ToldMore(picks[..n], evs[..m], picks, evs);
    }
  }

  lemma ToldMore(picks: seq<Pick>, evs: seq<Event>, picks': seq<Pick>, evs': seq<Event>)
    requires ToldBy(picks, evs) && picks <= picks' && evs <= evs'
    requires forall k :: |evs| <= k < |evs'| && Reports(evs'[k]) ==>
               exists j :: 0 <= j < |picks'| && Tells(picks'[j], evs'[k])
    ensures ToldBy(picks', evs')
  {
    forall k | 0 <= k < |evs'| && Reports(evs'[k]) ensures exists j :: 0 <= j < |picks'| && Tells(picks'[j], evs'[k]) {
      if k < |evs| {
        assert evs'[k] == evs[k];
        var j :| 0 <= j < |picks| && Tells(picks[j], evs[k]);
        assert picks'[j] == picks[j];
      }
    }
  }

  /** The event may bring a receipt from outside. */
  predicate Reports(ev: Event) {
    ev.Look? || ev.Gossip? || ev.Straggle?
  }

  ghost predicate ToldBy(script: seq<Pick>, evs: seq<Event>) {
    forall k :: 0 <= k < |evs| && Reports(evs[k]) ==> exists j :: 0 <= j < |script| && Tells(script[j], evs[k])
  }

  /** Whatever the executor and the network decide, a run of the loops from sound receipts leaves sound receipts. */
  lemma LoopsAreSafe(job: Job, val: Lookup, sc: Scope, st: State, script: seq<Pick>, evs: seq<Event>)
    requires Run(job, st, evs).Some? && Plays(job, st, script, evs) && SoundScript(val, script)
    requires Meaningful(job, val, sc) && SoundState(job, val, sc, st) && (sc.lossy || !Run(job, st, evs).value.lost)
    ensures SoundState(job, val, sc, Run(job, st, evs).value)
  {
    PlaysTold(job, st, script, evs);
    forall k | 0 <= k < |evs|
      ensures SoundEvent(val, evs[k])
    {
      if Reports(evs[k]) {
        var j :| 0 <= j < |script| && Tells(script[j], evs[k]);
        assert SoundPick(val, script[j]);
      }
    }
    Safety(job, val, sc, st, evs);
  }

  ghost predicate SoundScript(val: Lookup, script: seq<Pick>) {
    forall k :: 0 <= k < |script| ==> SoundPick(val, script[k])
  }

  lemma {:induction false} RunMore(job: Job, st: State, mid: State, evs: seq<Event>, more: seq<Event>)
    requires Run(job, st, evs) == Some(mid)
    ensures Run(job, st, evs + more) == Run(job, mid, more)
    decreases |more|
  {
    if more == [] {
      assert evs + more == evs;
    } else {
      RunMore(job, st, mid, evs, more[..|more| - 1]);
      assert (evs + more)[..|evs + more| - 1] == evs + more[..|more| - 1];
    }
  }

  ghost predicate SoundPick(val: Lookup, pick: Pick) {
    match pick
    case Advance(_, _, _, _, found, _) => found.Some? ==> SoundReceipt(val, found.value)
    case Hear(r) => SoundReceipt(val, r)
    case Late(r, _) => SoundReceipt(val, r)
    case _ => true
  }

  lemma RunOne(job: Job, st: State, evs: seq<Event>)
    requires |evs| <= 1
    ensures evs != [] ==> Run(job, st, evs) == Next(job, st, evs[0])
  {
    if evs != [] {
      assert evs[..|evs| - 1] == [];
      assert Run(job, st, []) == Some(st);
    }
  }
}
