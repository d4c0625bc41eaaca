/**
 Bookkeeping over all runs of a worker: the linkmap agrees with the database, and
 a run that loses no task has committed every task it started.
 */
module WorkerProgress {
  import opened Wrappers
  import opened IpldModel
  import opened Inputs
  import opened Workflows
  import opened Execution
  import opened Database
  import opened Scheduler
  import opened Worker

  /** `u` names the one receipt behind each receipt CID. */
  type Universe = Cid -> Receipt

  ghost predicate Hashes(u: Universe, r: Receipt) {
    u(r.cid) == r
  }

  ghost predicate InRun(job: Job, v: Vertex) {
    exists b, k :: 0 <= b < |job.run| && 0 <= k < |job.run[b]| && job.run[b][k] == v
  }

  /** The spawned task is one of the run, with its module. */
  ghost predicate Belongs(job: Job, r: Running) {
    InRun(job, r.vertex) && RUrl(r.vertex.url) in job.resources && r.wasm == job.resources[RUrl(r.vertex.url)]
  }

  ghost predicate Yields(w: World, wasm: seq<Byte>, fun: string, args: seq<Input>, o: Ipld) {
    Execute(w, wasm, fun, args).Some? && OutputToIpld(w.codec, Execute(w, wasm, fun, args).value) == Ok(o)
  }

  /** The task returns the value for some arguments. */
  ghost predicate MayReturn(job: Job, v: Vertex, o: Ipld) {
    RUrl(v.url) in job.resources && exists args :: Yields(job.world, job.resources[RUrl(v.url)], v.fun, args, o)
  }

  ghost predicate HashedTables(u: Universe, t: Tables) {
    forall k :: k in t.receipts ==> t.receipts[k].cid == k && Hashes(u, t.receipts[k])
  }

  ghost predicate HashedState(u: Universe, job: Job, st: State) {
    && (forall t :: t in st.running ==> Belongs(job, st.running[t]))
    && HashedTables(u, st.tables)
    && (st.pending.Some? ==> Hashes(u, st.pending.value))
  }

  ghost predicate HashedEvent(u: Universe, ev: Event) {
    match ev
    case Gossip(r) => Hashes(u, r)
    case Straggle(r, _) => Hashes(u, r)
    case Look(_, _, o) => o.found.Some? ==> Hashes(u, o.found.value)
    case _ => true
  }

  /** Receipts the run can make itself are named by their content too. */
  ghost predicate HashedJob(u: Universe, job: Job) {
    forall v, o :: InRun(job, v) && MayReturn(job, v, o) ==> Hashes(u, MakeReceipt(job.world, v, o))
  }

  lemma StartHashed(u: Universe, job: Job, st: State)
    requires HashedState(u, job, st) && Start(job, st).Some?
    ensures HashedState(u, job, Start(job, st).value)
  {
    var batch := job.run[st.started];
    if Fetched(job, batch) {
      forall t | t in Spawned(job, batch) ensures Belongs(job, Spawned(job, batch)[t]) {
        assert job.run[st.started][t] == Spawned(job, batch)[t].vertex;
      }
    }
  }

  lemma JoinHashed(u: Universe, job: Job, st: State, task: nat)
    requires HashedJob(u, job) && HashedState(u, job, st) && JoinNext(job, st, task).Some?
    ensures HashedState(u, job, JoinNext(job, st, task).value)
  {
    var r := st.running[task];
    assert Belongs(job, r);
    var out := ExecuteTask(job.world, r).value;
    if OutputToIpld(job.world.codec, out).Ok? {
      var o := OutputToIpld(job.world.codec, out).value;
      assert Yields(job.world, r.wasm, r.vertex.fun, Resolved(job.world.codec, r), o);
      assert MayReturn(job, r.vertex, o);
    }
  }

  lemma LookHashed(u: Universe, job: Job, st: State, task: nat, at: Path, o: Outside)
    requires HashedState(u, job, st) && HashedEvent(u, Look(task, at, o)) && LookUp(job, st, task, at, o).Some?
    ensures HashedState(u, job, LookUp(job, st, task, at, o).value)
  {
    LookEffect(job, st, task, at, o);
  }

  lemma CommitHashed(u: Universe, job: Job, st: State, ok: bool)
    requires HashedState(u, job, st) && CommitPending(job, st, ok).Some?
    ensures HashedState(u, job, CommitPending(job, st, ok).value)
  {
    var st' := CommitPending(job, st, ok).value;
    assert st'.running == st.running;
  }

  lemma HearHashed(u: Universe, job: Job, st: State, r: Receipt, ok: bool)
    requires HashedState(u, job, st) && Hashes(u, r)
    ensures HashedState(u, job, st.(tables := Stored(st.tables, r)))
    ensures HashedState(u, job, st.(tables := CommitIf(job, st.tables, r, ok)))
  {
  }

  lemma HashedStep(u: Universe, job: Job, st: State, ev: Event)
    requires HashedJob(u, job) && HashedState(u, job, st) && HashedEvent(u, ev) && Next(job, st, ev).Some?
    ensures HashedState(u, job, Next(job, st, ev).value)
  {
    match ev
    case Join(task) => JoinHashed(u, job, st, task);
    case StartBatch => StartHashed(u, job, st);
    case Look(task, at, o) => LookHashed(u, job, st, task, at, o);
    case Commit(ok) => CommitHashed(u, job, st, ok);
    case Gossip(r) => HearHashed(u, job, st, r, true);
    case Straggle(r, ok) => HearHashed(u, job, st, r, ok);
    case Lose(_) =>
    case EndBatch =>
    case Abort =>
  }

  /** A receipt with the instruction and the output is stored. */
  ghost predicate StoredOutput(t: Tables, c: Cid, out: InstructionResult<Arg>) {
    exists k :: k in t.receipts && t.receipts[k].instruction == c && OutputAsArg(t.receipts[k]) == out
  }

  /** Receipts are never removed or replaced. */
  ghost predicate Grows(t: Tables, t': Tables) {
    t'.workflows == t.workflows && forall k :: k in t.receipts ==> k in t'.receipts && t'.receipts[k] == t.receipts[k]
  }

  lemma StoresGrow(job: Job, t: Tables, r: Receipt, ok: bool)
    ensures Grows(t, Stored(t, r)) && Grows(t, Committed(t, job.workflow, r)) && Grows(t, CommitIf(job, t, r, ok))
  {
  }

  lemma GrowsKeeps(t: Tables, t': Tables, c: Cid)
    requires Grows(t, t')
    ensures HasInstruction(t, c) ==> HasInstruction(t', c)
    ensures forall out :: StoredOutput(t, c, out) ==> StoredOutput(t', c, out)
  {
    if HasInstruction(t, c) {
      var k :| k in t.receipts && t.receipts[k].instruction == c;
      assert t'.receipts[k].instruction == c;
    }
    forall out | StoredOutput(t, c, out) ensures StoredOutput(t', c, out) {
      var k :| k in t.receipts && t.receipts[k].instruction == c && OutputAsArg(t.receipts[k]) == out;
      assert t'.receipts[k] == t.receipts[k];
    }
  }

  /** After a commit the receipt itself is stored: nothing else has its key. */
  lemma CommitStores(u: Universe, job: Job, t: Tables, r: Receipt)
    requires forall k :: k in t.receipts ==> t.receipts[k].cid == k && Hashes(u, t.receipts[k])
    requires Hashes(u, r) && job.workflow in t.workflows
    ensures var t' := Committed(t, job.workflow, r);
            r.cid in t'.receipts && t'.receipts[r.cid] == r
            && HasInstruction(t', r.instruction) && StoredOutput(t', r.instruction, OutputAsArg(r))
  {
    var t' := Committed(t, job.workflow, r);
    assert t'.receipts[r.cid] == r;
  }

  // ---------------------------------------------------------------------------
  // The linkmap agrees with the database
  // ---------------------------------------------------------------------------

  /** The entry is the output of a stored receipt, or of the one about to be committed. */
  ghost predicate Backed(st: State, c: Cid, out: InstructionResult<Arg>) {
    || StoredOutput(st.tables, c, out)
    || (st.pending.Some? && st.pending.value.instruction == c && OutputAsArg(st.pending.value) == out)
  }

  ghost predicate CoherentLinkmap(st: State) {
    forall c :: c in st.linkmap ==> Backed(st, c, st.linkmap[c])
  }

  /** The commits of the step succeed. */
  predicate CommitsSucceed(ev: Event) {
    match ev
    case Look(_, _, o) => o.commits
    case Straggle(_, ok) => ok
    case Commit(ok) => ok
    case _ => true
  }

  /** A receipt the network answered is stored before it enters the linkmap. */
  lemma InsertCoherent(u: Universe, job: Job, st: State, st': State, r: Receipt)
    requires HashedState(u, job, st) && Hashes(u, r) && job.workflow in st.tables.workflows && CoherentLinkmap(st)
    requires st'.linkmap == InsertNew(st.linkmap, r.instruction, OutputAsArg(r))
    requires st'.tables == Committed(st.tables, job.workflow, r) && st'.pending == st.pending
    ensures CoherentLinkmap(st')
  {
    CommitStores(u, job, st.tables, r);
    forall c | c in st'.linkmap ensures Backed(st', c, st'.linkmap[c]) {
      GrowsKeeps(st.tables, st'.tables, c);
      if c in st.linkmap { assert Backed(st, c, st.linkmap[c]); }
    }
  }

  /** Entries that are only carried over stay backed. */
  lemma KeptCoherent(st: State, st': State)
    requires CoherentLinkmap(st) && Grows(st.tables, st'.tables)
    requires st'.linkmap == st.linkmap && (st.pending.None? || st'.pending == st.pending)
    ensures CoherentLinkmap(st')
  {
    forall c | c in st'.linkmap ensures Backed(st', c, st'.linkmap[c]) {
      assert Backed(st, c, st.linkmap[c]);
      GrowsKeeps(st.tables, st'.tables, c);
    }
  }

  lemma JoinCoherent(job: Job, st: State, task: nat)
    requires CoherentLinkmap(st) && JoinNext(job, st, task).Some?
    ensures CoherentLinkmap(JoinNext(job, st, task).value)
  {
    JoinEffect(job, st, task);
    var st' := JoinNext(job, st, task).value;
    forall c | c in st'.linkmap ensures Backed(st', c, st'.linkmap[c]) {
      if c in st.linkmap { assert Backed(st, c, st.linkmap[c]); }
    }
  }

  lemma CommitCoherent(u: Universe, job: Job, st: State)
    requires HashedState(u, job, st) && CoherentLinkmap(st) && job.workflow in st.tables.workflows && st.pending.Some?
    ensures CoherentLinkmap(CommitPending(job, st, true).value)
  {
    var st' := CommitPending(job, st, true).value;
    CommitStores(u, job, st.tables, st.pending.value);
    forall c | c in st'.linkmap ensures Backed(st', c, st'.linkmap[c]) {
      assert Backed(st, c, st.linkmap[c]);
      GrowsKeeps(st.tables, st'.tables, c);
    }
  }

  lemma LookCoherent(u: Universe, job: Job, st: State, task: nat, at: Path, o: Outside)
    requires HashedState(u, job, st) && HashedEvent(u, Look(task, at, o)) && LookUp(job, st, task, at, o).Some?
    requires CoherentLinkmap(st) && o.commits && job.workflow in st.tables.workflows
    ensures CoherentLinkmap(LookUp(job, st, task, at, o).value)
  {
    var st' := LookUp(job, st, task, at, o).value;
    LookEffect(job, st, task, at, o);
    if st'.linkmap == st.linkmap && st'.tables == st.tables {
      KeptCoherent(st, st');
    } else {
      InsertCoherent(u, job, st, st', o.found.value);
    }
  }

  lemma CoherenceStep(u: Universe, job: Job, st: State, ev: Event)
    requires HashedJob(u, job) && HashedState(u, job, st) && HashedEvent(u, ev) && Next(job, st, ev).Some?
    requires CoherentLinkmap(st) && CommitsSucceed(ev) && job.workflow in st.tables.workflows
    ensures CoherentLinkmap(Next(job, st, ev).value)
  {
    match ev
    case Look(task, at, o) => LookCoherent(u, job, st, task, at, o);
    case Straggle(r, _) => HearCoherent(u, job, st, r);
    case Gossip(r) => HearCoherent(u, job, st, r);
    case Join(task) => JoinCoherent(job, st, task);
    case Commit(_) => CommitCoherent(u, job, st);
    case _ =>
      QuietEvent(job, st, ev);
      KeptCoherent(st, Next(job, st, ev).value);
  }

  lemma HearCoherent(u: Universe, job: Job, st: State, r: Receipt)
    requires HashedState(u, job, st) && Hashes(u, r) && CoherentLinkmap(st) && job.workflow in st.tables.workflows
    ensures CoherentLinkmap(st.(tables := Stored(st.tables, r)))
    ensures CoherentLinkmap(st.(linkmap := InsertNew(st.linkmap, r.instruction, OutputAsArg(r)),
                                tables := CommitIf(job, st.tables, r, true)))
  {
    StoresGrow(job, st.tables, r, true);
    KeptCoherent(st, st.(tables := Stored(st.tables, r)));
    InsertCoherent(u, job, st,
      st.(linkmap := InsertNew(st.linkmap, r.instruction, OutputAsArg(r)), tables := CommitIf(job, st.tables, r, true)), r);
  }

  /** Starting, closing, giving up a batch and aborting leave linkmap, tables and the pending receipt alone. */
  lemma QuietEvent(job: Job, st: State, ev: Event)
    requires ev.StartBatch? || ev.Lose? || ev.EndBatch? || ev.Abort?
    requires Next(job, st, ev).Some?
    ensures var st' := Next(job, st, ev).value;
            st'.linkmap == st.linkmap && st'.tables == st.tables && st'.pending == st.pending
  {
  }

  /** No step takes a receipt from the tables. */
  lemma TablesGrow(job: Job, st: State, ev: Event)
    requires Next(job, st, ev).Some?
    ensures Grows(st.tables, Next(job, st, ev).value.tables)
  {
    match ev
    case Look(task, at, o) => LookGrows(job, st, task, at, o);
    case Join(task) => JoinEffect(job, st, task);
    case _ =>
  }

  lemma LookGrows(job: Job, st: State, task: nat, at: Path, o: Outside)
    requires LookUp(job, st, task, at, o).Some?
    ensures Grows(st.tables, LookUp(job, st, task, at, o).value.tables)
  {
    LookEffect(job, st, task, at, o);
  }

  /** Cache coherence of whole runs, while commits succeed. */
  lemma {:induction false} Coherence(u: Universe, job: Job, st: State, evs: seq<Event>)
    requires HashedJob(u, job) && HashedState(u, job, st) && CoherentLinkmap(st) && job.workflow in st.tables.workflows
    requires forall k :: 0 <= k < |evs| ==> HashedEvent(u, evs[k]) && CommitsSucceed(evs[k])
    requires Run(job, st, evs).Some?
    ensures var end := Run(job, st, evs).value;
            HashedState(u, job, end) && CoherentLinkmap(end) && end.tables.workflows == st.tables.workflows
  {
    if evs != [] {
      var front := evs[..|evs| - 1];
      Coherence(u, job, st, front);
      var mid := Run(job, st, front).value;
      HashedStep(u, job, mid, evs[|evs| - 1]);
      CoherenceStep(u, job, mid, evs[|evs| - 1]);
      TablesGrow(job, mid, evs[|evs| - 1]);
    }
  }

  /** Receipts of one instruction agree on its output. */
  ghost predicate OneOutputEach(t: Tables) {
    forall k, k' :: k in t.receipts && k' in t.receipts && t.receipts[k].instruction == t.receipts[k'].instruction ==>
      t.receipts[k].out == t.receipts[k'].out
  }

  /** At a batch boundary the linkmap and the database resolve a CID alike, whichever row the query returns. */
  lemma ResolvesAlike(st: State, c: Cid, row: Cid)
    requires CoherentLinkmap(st) && st.pending.None? && OneOutputEach(st.tables)
    requires c in st.linkmap
    ensures HasInstruction(st.tables, c)
    ensures IsRow(st.tables, row, c) ==> OutputAsArg(st.tables.receipts[row]) == st.linkmap[c]
  {
    assert Backed(st, c, st.linkmap[c]);
    var k :| && k in st.tables.receipts && st.tables.receipts[k].instruction == c
             && OutputAsArg(st.tables.receipts[k]) == st.linkmap[c];
  }

  // ---------------------------------------------------------------------------
  // A run that loses nothing commits everything
  // ---------------------------------------------------------------------------

  /** Where the task is: committed, about to be, or still running. */
  ghost predicate Placed(job: Job, st: State, b: int, k: int)
    requires 0 <= b < |job.run| && 0 <= k < |job.run[b]|
  {
    var v := job.run[b][k];
    || HasInstruction(st.tables, v.cid)
    || (st.pending.Some? && st.pending.value.instruction == v.cid)
    || (st.open && b == st.started - 1 && k in st.running && st.running[k].vertex == v)
  }

  ghost predicate Accounted(job: Job, st: State) {
    && st.started <= |job.run|
    && (st.pending.Some? && st.status == Active ==> st.open)
    && (st.status == Active && !st.lost ==>
          forall b, k :: 0 <= b < st.started && 0 <= k < |job.run[b]| && job.run[b][k].op == WASM_OP ==>
            Placed(job, st, b, k))
  }

  /** A step that leaves the tasks where they are, or moves them forward. */
  ghost predicate Forward(st: State, st': State) {
    && Grows(st.tables, st'.tables) && st'.started == st.started && st'.open == st.open
    && (st.pending.Some? ==> st'.pending == st.pending || HasInstruction(st'.tables, st.pending.value.instruction))
    && (forall t :: t in st.running ==>
          || (t in st'.running && st'.running[t].vertex == st.running[t].vertex)
          || (st'.pending.Some? && st'.pending.value.instruction == st.running[t].vertex.cid))
  }

  lemma ForwardAccounted(job: Job, st: State, st': State)
    requires Accounted(job, st) && Forward(st, st') && st.status == Active && (!st'.lost ==> !st.lost)
    requires st'.pending.Some? ==> st'.open
    ensures Accounted(job, st')
  {
    if st'.status == Active && !st'.lost {
      forall b, k | 0 <= b < st'.started && 0 <= k < |job.run[b]| && job.run[b][k].op == WASM_OP
        ensures Placed(job, st', b, k)
      {
        assert Placed(job, st, b, k);
        GrowsKeeps(st.tables, st'.tables, job.run[b][k].cid);
      }
    }
  }

  lemma StartAccounted(job: Job, st: State)
    requires Accounted(job, st) && st.status == Active && Start(job, st).Some?
    ensures Accounted(job, Start(job, st).value)
  {
    var st' := Start(job, st).value;
    if st'.status == Active && !st'.lost {
      forall b, k | 0 <= b < st'.started && 0 <= k < |job.run[b]| && job.run[b][k].op == WASM_OP
        ensures Placed(job, st', b, k)
      {
        if b < st.started { assert Placed(job, st, b, k); }
      }
    }
  }

  lemma LookAccounted(job: Job, st: State, task: nat, at: Path, o: Outside)
    requires Accounted(job, st) && st.status == Active && LookUp(job, st, task, at, o).Some?
    ensures Accounted(job, LookUp(job, st, task, at, o).value)
  {
    LookEffect(job, st, task, at, o);
    var st' := LookUp(job, st, task, at, o).value;
    if o.found.Some? { StoresGrow(job, st.tables, o.found.value, o.commits); }
    ForwardAccounted(job, st, st');
  }

  lemma JoinAccounted(job: Job, st: State, task: nat)
    requires Accounted(job, st) && st.status == Active && JoinNext(job, st, task).Some?
    ensures Accounted(job, JoinNext(job, st, task).value)
  {
    JoinEffect(job, st, task);
    var st' := JoinNext(job, st, task).value;
    if st'.status == Active { ForwardAccounted(job, st, st'); }
  }

  lemma CommitAccounted(u: Universe, job: Job, st: State, ok: bool)
    requires HashedState(u, job, st) && Accounted(job, st) && st.status == Active && st.pending.Some?
    ensures Accounted(job, CommitPending(job, st, ok).value)
  {
    var st' := CommitPending(job, st, ok).value;
    if Commits(job, st.tables, ok) {
      CommitStores(u, job, st.tables, st.pending.value);
      StoresGrow(job, st.tables, st.pending.value, ok);
      ForwardAccounted(job, st, st');
    }
  }

  lemma AccountedStep(u: Universe, job: Job, st: State, ev: Event)
    requires HashedState(u, job, st) && Accounted(job, st) && Next(job, st, ev).Some?
    ensures Accounted(job, Next(job, st, ev).value)
  {
    match ev
    case StartBatch => StartAccounted(job, st);
    case Look(task, at, o) => LookAccounted(job, st, task, at, o);
    case Join(task) => JoinAccounted(job, st, task);
    case Commit(ok) => CommitAccounted(u, job, st, ok);
    case EndBatch => EndAccounted(job, st);
    case Gossip(r) =>
      StoresGrow(job, st.tables, r, true);
      if st.status == Active { ForwardAccounted(job, st, Next(job, st, ev).value); }
    case Straggle(r, ok) =>
      StoresGrow(job, st.tables, r, ok);
      if st.status == Active { ForwardAccounted(job, st, Next(job, st, ev).value); }
    case _ =>
  }

  lemma EndAccounted(job: Job, st: State)
    requires Accounted(job, st) && st.status == Active && End(st).Some?
    ensures Accounted(job, End(st).value)
  {
    var st' := End(st).value;
    if !st'.lost {
      forall b, k | 0 <= b < st'.started && 0 <= k < |job.run[b]| && job.run[b][k].op == WASM_OP
        ensures Placed(job, st', b, k)
      {
        assert Placed(job, st, b, k);
      }
    }
  }

  /** A run that ends with every batch run and no task lost has committed every task. */
  lemma {:induction false} CommitsEverything(u: Universe, job: Job, st: State, evs: seq<Event>)
    requires HashedJob(u, job) && HashedState(u, job, st) && Accounted(job, st)
    requires forall k :: 0 <= k < |evs| ==> HashedEvent(u, evs[k])
    requires Run(job, st, evs).Some?
    ensures var end := Run(job, st, evs).value;
            && HashedState(u, job, end) && Accounted(job, end)
            && (Succeeded(job, end) ==>
                  forall b, k :: 0 <= b < |job.run| && 0 <= k < |job.run[b]| && job.run[b][k].op == WASM_OP ==>
                    HasInstruction(end.tables, job.run[b][k].cid))
  {
    if evs != [] {
      var front := evs[..|evs| - 1];
      CommitsEverything(u, job, st, front);
      HashedStep(u, job, Run(job, st, front).value, evs[|evs| - 1]);
      AccountedStep(u, job, Run(job, st, front).value, evs[|evs| - 1]);
    }
    var end := Run(job, st, evs).value;
    if Succeeded(job, end) {
      forall b, k | 0 <= b < |job.run| && 0 <= k < |job.run[b]| && job.run[b][k].op == WASM_OP
        ensures HasInstruction(end.tables, job.run[b][k].cid)
      {
        assert Placed(job, end, b, k);
      }
    }
  }
}
