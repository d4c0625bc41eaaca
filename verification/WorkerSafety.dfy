/**
 Safety over all runs of a worker: whatever the interleaving, the failures and the
 batches given up, every receipt in the database carries its instruction's value.
 */
module WorkerSafety {
  import opened Wrappers
  import opened IpldModel
  import opened Inputs
  import opened Workflows
  import opened Execution
  import opened Database
  import opened Scheduler
  import opened Worker

  /** The argument is substituted link by link, and not a promise as a whole. */
  predicate Substituted(input: Input) {
    input.InIpld? && ParseAwait(input.ipld).None?
  }

  /** What a run can rely on: CIDs linked from its start, and whether batches may be lost. */
  datatype Scope = Scope(known: set<Cid>, lossy: bool)

  /** A task with the CID is run in batch `b`. */
  ghost predicate RunsAt(job: Job, b: int, k: int, c: Cid) {
    0 <= b < |job.run| && 0 <= k < |job.run[b]| && job.run[b][k].op == WASM_OP && job.run[b][k].cid == c
  }

  /** Linked whenever batch `b` runs: from the start, or, if no batch is lost, by an earlier one. */
  ghost predicate Certain(job: Job, sc: Scope, b: int, c: Cid) {
    c in sc.known || (!sc.lossy && exists b', k :: b' < b && RunsAt(job, b', k, c))
  }

  /**
   Links inside an argument order no tasks and fail silently, so they must mean the
   same whenever the batch runs: nothing at all, a resource that was fetched, or what is linked.
   */
  ghost predicate Settled(job: Job, val: Lookup, sc: Scope, b: int, v: Vertex) {
    forall k :: 0 <= k < |v.args| && Substituted(v.args[k]) ==>
      && WellFormed(v.args[k].ipld)
      && forall c :: Mentions(v.args[k].ipld, c) ==> val(c).None? || RCid(c) in job.resources || Certain(job, sc, b, c)
  }

  /** What the instruction returns when its arguments are resolved by `val`. */
  ghost function ValueOf(job: Job, val: Lookup, v: Vertex): Option<Ipld>
    requires RUrl(v.url) in job.resources
  {
    match Execute(job.world, job.resources[RUrl(v.url)], v.fun, ResolveArgs(job.world.codec, v.args, val))
    case None => None
    case Some(out) =>
      match OutputToIpld(job.world.codec, out)
      case Ok(o) => Some(o)
      case Err(_) => None
  }

  /** `val` gives the instruction the value it computes from the values of its arguments. */
  ghost predicate Meant(job: Job, val: Lookup, v: Vertex) {
    v.op == WASM_OP && RUrl(v.url) in job.resources && ValueOf(job, val, v).Some? ==>
      val(v.cid) == Some(ResOk(ArgIpld(ValueOf(job, val, v).value)))
  }

  /** `val` gives every CID of the run its one meaning, as a resource or as an instruction. */
  ghost predicate Meaningful(job: Job, val: Lookup, sc: Scope) {
    && (forall c :: RCid(c) in job.resources ==> val(c) == Some(ResOk(ArgIpld(Bytes(job.resources[RCid(c)])))))
    && (forall b, k :: 0 <= b < |job.run| && 0 <= k < |job.run[b]| ==>
          Settled(job, val, sc, b, job.run[b][k]) && Meant(job, val, job.run[b][k]))
  }

  ghost predicate SoundReceipt(val: Lookup, r: Receipt) {
    val(r.instruction) == Some(OutputAsArg(r))
  }

  ghost predicate SoundTables(val: Lookup, t: Tables) {
    forall k :: k in t.receipts ==> SoundReceipt(val, t.receipts[k])
  }

  ghost predicate SoundLinkmap(val: Lookup, m: map<Cid, InstructionResult<Arg>>) {
    forall c :: c in m ==> val(c) == Some(m[c])
  }

  /** Receipts from gossip and from the network are sound. */
  ghost predicate SoundEvent(val: Lookup, ev: Event) {
    match ev
    case Gossip(r) => SoundReceipt(val, r)
    case Straggle(r, _) => SoundReceipt(val, r)
    case Look(_, _, o) => o.found.Some? ==> SoundReceipt(val, o.found.value)
    case _ => true
  }

  /** A stage says only what is true of the CID looked up. */
  ghost predicate SoundStage(job: Job, val: Lookup, sc: Scope, b: int, c: Cid, s: Stage) {
    && (s.Done? && s.answer.Some? ==> val(c) == s.answer)
    && (s.AtDb? || s.AtNetwork? || (s.Done? && s.answer.None?) ==> RCid(c) !in job.resources)
    && (s.AtResources? || s.AtDb? || s.AtNetwork? || (s.Done? && s.answer.None?) ==> !Certain(job, sc, b, c))
  }

  ghost predicate SoundRunning(job: Job, val: Lookup, sc: Scope, b: int, k: nat, r: Running) {
    && 0 <= b < |job.run| && k < |job.run[b]| && job.run[b][k] == r.vertex
    && r.vertex.op == WASM_OP && RUrl(r.vertex.url) in job.resources && r.wasm == job.resources[RUrl(r.vertex.url)]
    && (forall p :: p in r.lookups && LinkIn(r.vertex.args, p).Some? ==>
          SoundStage(job, val, sc, b, LinkIn(r.vertex.args, p).value, r.lookups[p]))
  }

  /** How many batches are over. */
  function Closed(st: State): int {
    if st.open then st.started - 1 else st.started
  }

  /** What is certain is linked, and each task of the open batch is running or linked. */
  ghost predicate Linking(job: Job, sc: Scope, st: State) {
    && (forall c :: Certain(job, sc, Closed(st), c) ==> c in st.linkmap)
    && (st.open && !sc.lossy ==>
          forall k, c :: RunsAt(job, st.started - 1, k, c) ==> k in st.running || c in st.linkmap)
  }

  ghost predicate SoundState(job: Job, val: Lookup, sc: Scope, st: State) {
    && SoundLinkmap(val, st.linkmap)
    && SoundTables(val, st.tables)
    && (st.pending.Some? ==> SoundReceipt(val, st.pending.value))
    && (forall t :: t in st.running ==> st.open && SoundRunning(job, val, sc, st.started - 1, t, st.running[t]))
    && (st.status == Active ==> Linking(job, sc, st))
  }

  lemma CommitSound(job: Job, val: Lookup, t: Tables, r: Receipt, ok: bool)
    requires SoundTables(val, t) && SoundReceipt(val, r)
    ensures SoundTables(val, CommitIf(job, t, r, ok)) && SoundTables(val, Stored(t, r))
  {
  }

  /** An answer is the meaning of the link, and a missing answer means the link has none. */
  lemma ArgumentMeans(job: Job, val: Lookup, sc: Scope, b: int, t: nat, r: Running, k: nat)
    requires Meaningful(job, val, sc) && SoundRunning(job, val, sc, b, t, r) && Ready(r) && k < |r.vertex.args|
    requires Substituted(r.vertex.args[k])
    ensures Resolved(job.world.codec, r)[k] == ResolveInput(job.world.codec, r.vertex.args[k], val)
  {
    var v, i, answers := r.vertex, r.vertex.args[k].ipld, AnswersOf(r.lookups);
    assert Settled(job, val, sc, b, v);
    assert InputAnswered(v.args[k], [k], r.lookups);
    forall p | LinkAt(i, p).Some? ensures answers([k] + p) == val(LinkAt(i, p).value) {
      var c := LinkAt(i, p).value;
      AllAnsweredAt(i, [k], r.lookups, p);
      LinkAtMentions(i, p);
      assert ([k] + p)[1..] == p && LinkIn(v.args, [k] + p) == Some(c);
      assert SoundStage(job, val, sc, b, c, r.lookups[[k] + p]);
    }
    SubstAtAgrees(job.world.codec, i, [k], answers, val, false);
    ResolveLinksIsSubst(job.world.codec, i, val);
  }

  /** Arguments resolved in any interleaving are those `val` gives, up to promises left unresolved. */
  lemma ArgumentsRefine(job: Job, val: Lookup, sc: Scope, b: int, t: nat, r: Running)
    requires Meaningful(job, val, sc) && SoundRunning(job, val, sc, b, t, r) && Ready(r)
    ensures Refines(Resolved(job.world.codec, r), ResolveArgs(job.world.codec, r.vertex.args, val))
  {
    var args, full := Resolved(job.world.codec, r), ResolveArgs(job.world.codec, r.vertex.args, val);
    forall k | 0 <= k < |args| ensures args[k] == full[k] || args[k].InDeferred? {
      if Substituted(r.vertex.args[k]) {
        ArgumentMeans(job, val, sc, b, t, r, k);
      } else if !r.vertex.args[k].InArg? {
        assert InputAnswered(r.vertex.args[k], [k], r.lookups);
        assert LinkIn(r.vertex.args, [k]).Some?;
        assert SoundStage(job, val, sc, b, LinkIn(r.vertex.args, [k]).value, r.lookups[[k]]);
      }
    }
  }

  /** A task that finishes returned its instruction's value. */
  lemma JoinedValue(job: Job, val: Lookup, sc: Scope, b: int, t: nat, r: Running, out: Output, o: Ipld)
    requires Meaningful(job, val, sc) && SoundRunning(job, val, sc, b, t, r) && Ready(r)
    requires ExecuteTask(job.world, r) == Some(out) && OutputToIpld(job.world.codec, out) == Ok(o)
    ensures SoundReceipt(val, MakeReceipt(job.world, r.vertex, o))
  {
    ArgumentsRefine(job, val, sc, b, t, r);
    SucceedsAsResolved(job.world, r.wasm, r.vertex.fun, Resolved(job.world.codec, r),
                       ResolveArgs(job.world.codec, r.vertex.args, val));
    assert Meant(job, val, r.vertex);
  }

  lemma StageSound(job: Job, val: Lookup, sc: Scope, b: int, st: State, c: Cid, s: Stage, o: Outside)
    requires Meaningful(job, val, sc) && SoundLinkmap(val, st.linkmap) && SoundTables(val, st.tables)
    requires SoundStage(job, val, sc, b, c, s) && (o.found.Some? ==> SoundReceipt(val, o.found.value))
    requires Certain(job, sc, b, c) ==> c in st.linkmap
    requires ResolveCid(job, st, c, s, o).Some?
    ensures SoundStage(job, val, sc, b, c, ResolveCid(job, st, c, s, o).value.stage)
  {
  }

  lemma LookedSound(job: Job, val: Lookup, sc: Scope, b: int, t: nat, r: Running, at: Path, c: Cid, s: Stage)
    requires SoundRunning(job, val, sc, b, t, r) && LinkIn(r.vertex.args, at) == Some(c)
    requires SoundStage(job, val, sc, b, c, s)
    ensures SoundRunning(job, val, sc, b, t, r.(lookups := r.lookups[at := s]))
  {
  }

  lemma LookingSound(job: Job, val: Lookup, sc: Scope, st: State, task: nat, at: Path, o: Outside)
    requires Meaningful(job, val, sc) && SoundLinkmap(val, st.linkmap) && SoundTables(val, st.tables)
    requires SoundEvent(val, Look(task, at, o)) && Linking(job, sc, st) && LookUp(job, st, task, at, o).Some?
    requires task in st.running && SoundRunning(job, val, sc, st.started - 1, task, st.running[task])
    ensures SoundRunning(job, val, sc, st.started - 1, task, LookUp(job, st, task, at, o).value.running[task])
  {
    var r, b := st.running[task], st.started - 1;
    var c := LinkIn(r.vertex.args, at).value;
    var stage := if at in r.lookups then r.lookups[at] else AtLinkmap;
    assert SoundStage(job, val, sc, b, c, stage);
    StageSound(job, val, sc, b, st, c, stage, o);
    LookedSound(job, val, sc, b, task, r, at, c, ResolveCid(job, st, c, stage, o).value.stage);
  }

  lemma LinkingGrows(job: Job, sc: Scope, st: State, st': State)
    requires Linking(job, sc, st) && st'.open == st.open && st'.started == st.started
    requires st.running.Keys <= st'.running.Keys && forall c :: c in st.linkmap ==> c in st'.linkmap
    ensures Linking(job, sc, st')
  {
  }

  /** What a lookup links and commits is sound. */
  lemma LookFindsSound(job: Job, val: Lookup, st: State, task: nat, at: Path, o: Outside)
    requires SoundLinkmap(val, st.linkmap) && SoundTables(val, st.tables) && SoundEvent(val, Look(task, at, o))
    requires LookUp(job, st, task, at, o).Some?
    ensures var st' := LookUp(job, st, task, at, o).value;
            && SoundLinkmap(val, st'.linkmap) && SoundTables(val, st'.tables)
            && task in st.running && task in st'.running
            && st' == st.(linkmap := st'.linkmap, tables := st'.tables, running := st.running[task := st'.running[task]])
            && forall c :: c in st.linkmap ==> c in st'.linkmap
  {
    LookEffect(job, st, task, at, o);
    if o.found.Some? { CommitSound(job, val, st.tables, o.found.value, o.commits); }
  }

  /** A state that differs in one running task and has linked more is sound if that task and the stores are. */
  lemma OneRunningSound(job: Job, val: Lookup, sc: Scope, st: State, st': State, task: nat)
    requires SoundState(job, val, sc, st) && st.status == Active && task in st.running && task in st'.running
    requires SoundLinkmap(val, st'.linkmap) && SoundTables(val, st'.tables)
    requires SoundRunning(job, val, sc, st.started - 1, task, st'.running[task])
    requires st' == st.(linkmap := st'.linkmap, tables := st'.tables, running := st.running[task := st'.running[task]])
    requires forall c :: c in st.linkmap ==> c in st'.linkmap
    ensures SoundState(job, val, sc, st')
  {
    LinkingGrows(job, sc, st, st');
  }

  lemma LookSound(job: Job, val: Lookup, sc: Scope, st: State, task: nat, at: Path, o: Outside)
    requires Meaningful(job, val, sc) && SoundState(job, val, sc, st) && SoundEvent(val, Look(task, at, o))
    requires st.status == Active && LookUp(job, st, task, at, o).Some?
    ensures SoundState(job, val, sc, LookUp(job, st, task, at, o).value)
  {
    var st' := LookUp(job, st, task, at, o).value;
    assert SoundRunning(job, val, sc, st.started - 1, task, st.running[task]);
    LookingSound(job, val, sc, st, task, at, o);
    LookFindsSound(job, val, st, task, at, o);
    OneRunningSound(job, val, sc, st, st', task);
  }

  lemma JoinSound(job: Job, val: Lookup, sc: Scope, st: State, task: nat)
    requires Meaningful(job, val, sc) && SoundState(job, val, sc, st) && st.status == Active
    requires JoinNext(job, st, task).Some?
    ensures SoundState(job, val, sc, JoinNext(job, st, task).value)
  {
    var r := st.running[task];
    var out := ExecuteTask(job.world, r).value;
    if OutputToIpld(job.world.codec, out).Ok? {
      var o := OutputToIpld(job.world.codec, out).value;
      assert SoundReceipt(val, MakeReceipt(job.world, r.vertex, o)) by {
        assert SoundRunning(job, val, sc, st.started - 1, task, r);
        JoinedValue(job, val, sc, st.started - 1, task, r, out, o);
      }
      JoinedSound(job, val, sc, st, task, o);
    } else {
      JoinFails(job, val, sc, st, task);
    }
  }

  lemma JoinFails(job: Job, val: Lookup, sc: Scope, st: State, task: nat)
    requires SoundState(job, val, sc, st) && task in st.running
    ensures SoundState(job, val, sc, st.(running := st.running - {task}, status := Failed))
  {
  }

  lemma JoinedSound(job: Job, val: Lookup, sc: Scope, st: State, task: nat, o: Ipld)
    requires SoundState(job, val, sc, st) && st.status == Active && task in st.running
    requires SoundReceipt(val, MakeReceipt(job.world, st.running[task].vertex, o))
    ensures SoundState(job, val, sc, Joined(job, st, task, o))
  {
    var st' := Joined(job, st, task, o);
    assert SoundRunning(job, val, sc, st.started - 1, task, st.running[task]);
    assert forall c :: RunsAt(job, st.started - 1, task, c) ==> c in st'.linkmap;
  }

  lemma StartSound(job: Job, val: Lookup, sc: Scope, st: State)
    requires SoundState(job, val, sc, st) && st.status == Active && Start(job, st).Some?
    ensures SoundState(job, val, sc, Start(job, st).value)
  {
    var batch := job.run[st.started];
    if Fetched(job, batch) {
      forall t | t in Spawned(job, batch)
        ensures SoundRunning(job, val, sc, st.started, t, Spawned(job, batch)[t])
      {
        assert job.run[st.started][t] == Spawned(job, batch)[t].vertex;
      }
    }
  }

  /** When the last task of a batch was joined, all its tasks are linked. */
  lemma EndSound(job: Job, val: Lookup, sc: Scope, st: State)
    requires SoundState(job, val, sc, st) && st.status == Active && End(st).Some?
    ensures SoundState(job, val, sc, End(st).value)
  {
    forall c | Certain(job, sc, st.started, c) ensures c in st.linkmap {
      if !Certain(job, sc, st.started - 1, c) {
        var b: int, k: int :| b < st.started && RunsAt(job, b, k, c);
        assert b < st.started - 1 ==> Certain(job, sc, st.started - 1, c);
        assert RunsAt(job, st.started - 1, k, c) && k !in st.running;
      }
    }
  }

  /** A batch that is given up leaves what was linked from the start. */
  lemma LoseSound(job: Job, val: Lookup, sc: Scope, st: State, task: nat)
    requires SoundState(job, val, sc, st) && st.status == Active && sc.lossy && LoseBatch(st, task).Some?
    ensures SoundState(job, val, sc, LoseBatch(st, task).value)
  {
    assert forall c :: Certain(job, sc, st.started, c) <==> Certain(job, sc, st.started - 1, c);
  }

  /** Receipts that arrive, by gossip or after a lookup was given up. */
  lemma HearSound(job: Job, val: Lookup, sc: Scope, st: State, r: Receipt, ok: bool)
    requires SoundState(job, val, sc, st) && SoundReceipt(val, r)
    ensures SoundState(job, val, sc, st.(tables := Stored(st.tables, r)))
    ensures SoundState(job, val, sc, st.(linkmap := InsertNew(st.linkmap, r.instruction, OutputAsArg(r)),
                                         tables := CommitIf(job, st.tables, r, ok)))
  {
    CommitSound(job, val, st.tables, r, ok);
    if st.status == Active {
      LinkingGrows(job, sc, st, st.(tables := Stored(st.tables, r)));
      LinkingGrows(job, sc, st, st.(linkmap := InsertNew(st.linkmap, r.instruction, OutputAsArg(r)),
                                    tables := CommitIf(job, st.tables, r, ok)));
    }
  }

  lemma SaveSound(job: Job, val: Lookup, sc: Scope, st: State, ok: bool)
    requires SoundState(job, val, sc, st) && st.status == Active && CommitPending(job, st, ok).Some?
    ensures SoundState(job, val, sc, CommitPending(job, st, ok).value)
  {
    CommitSound(job, val, st.tables, st.pending.value, ok);
    LinkingGrows(job, sc, st, CommitPending(job, st, ok).value);
  }

  /** Every step keeps every receipt, linkmap entry and answer at its instruction's value. */
  lemma SafetyStep(job: Job, val: Lookup, sc: Scope, st: State, ev: Event)
    requires Meaningful(job, val, sc) && SoundState(job, val, sc, st) && SoundEvent(val, ev)
    requires Next(job, st, ev).Some? && (sc.lossy || !ev.Lose?)
    ensures SoundState(job, val, sc, Next(job, st, ev).value)
  {
    match ev
    case Look(task, at, o) => LookSound(job, val, sc, st, task, at, o);
    case Join(task) => JoinSound(job, val, sc, st, task);
    case Commit(ok) => SaveSound(job, val, sc, st, ok);
    case _ => OtherSound(job, val, sc, st, ev);
  }

  lemma OtherSound(job: Job, val: Lookup, sc: Scope, st: State, ev: Event)
    requires SoundState(job, val, sc, st) && SoundEvent(val, ev)
    requires Next(job, st, ev).Some? && (sc.lossy || !ev.Lose?) && !ev.Look? && !ev.Join? && !ev.Commit?
    ensures SoundState(job, val, sc, Next(job, st, ev).value)
  {
    match ev
    case Gossip(r) => HearSound(job, val, sc, st, r, true);
    case Straggle(r, ok) => HearSound(job, val, sc, st, r, ok);
    case StartBatch => StartSound(job, val, sc, st);
    case EndBatch => EndSound(job, val, sc, st);
    case Lose(task) => LoseSound(job, val, sc, st, task);
    case Abort => AbortSound(job, val, sc, st);
  }

  lemma AbortSound(job: Job, val: Lookup, sc: Scope, st: State)
    requires SoundState(job, val, sc, st)
    ensures SoundState(job, val, sc, st.(status := Failed))
  {
  }

  /** A batch once lost stays lost. */
  lemma LossStays(job: Job, st: State, ev: Event)
    requires Next(job, st, ev).Some?
    ensures Next(job, st, ev).value.lost <==> st.lost || ev.Lose?
  {
    match ev
    case Look(task, at, o) => LookEffect(job, st, task, at, o);
    case Join(task) => JoinEffect(job, st, task);
    case _ =>
  }

  /**
   Safety of whole runs: with failures, abandoned batches and batches run after them,
   where links inside arguments are settled without them; and of runs that lost no
   batch, where such links may also lead to tasks of earlier batches.
   */
  lemma {:induction false} Safety(job: Job, val: Lookup, sc: Scope, st: State, evs: seq<Event>)
    requires Meaningful(job, val, sc) && SoundState(job, val, sc, st)
    requires forall k :: 0 <= k < |evs| ==> SoundEvent(val, evs[k])
    requires Run(job, st, evs).Some? && (sc.lossy || !Run(job, st, evs).value.lost)
    ensures SoundState(job, val, sc, Run(job, st, evs).value)
  {
    if evs != [] {
      var front, last := evs[..|evs| - 1], evs[|evs| - 1];
      LossStays(job, Run(job, st, front).value, last);
      Safety(job, val, sc, st, front);
      SafetyStep(job, val, sc, Run(job, st, front).value, last);
    }
  }

  /** The state a worker starts from is sound when what it is given is. */
  lemma InitialSound(
    job: Job, val: Lookup, sc: Scope, linkmap: map<Cid, InstructionResult<Arg>>, t: Tables)
    requires SoundLinkmap(val, linkmap) && SoundTables(val, t) && forall c :: c in sc.known ==> c in linkmap
    ensures SoundState(job, val, sc, Initial(linkmap, t))
  {
  }

  /** No task is executed with an unresolved promise among the arguments it passes. */
  lemma NeverPassesPromise(job: Job, st: State, task: nat)
    requires Next(job, st, Join(task)).Some?
    ensures var r := st.running[task];
            var types := job.world.params(r.wasm, r.vertex.fun);
            && types.Some?
            && forall k :: 0 <= k < Passed(types.value, r.vertex.args) ==> !Resolved(job.world.codec, r)[k].InDeferred?
  {
    var r := st.running[task];
    NoPromisePassed(job.world, r.wasm, r.vertex.fun, Resolved(job.world.codec, r));
  }
}
