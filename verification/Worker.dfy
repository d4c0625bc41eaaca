/**
 The run of a worker as a state machine. A batch is started, its tasks look up
 their promises one stage at a time and in any interleaving, finish in any order,
 and are committed; a failed task ends its batch early, and later batches still run.
 */
module Worker {
  import opened Wrappers
  import opened IpldModel
  import opened Inputs
  import opened Workflows
  import opened Execution
  import opened Database
  import opened Scheduler

  const WASM_OP: string := "wasm/run"

  /** What stays fixed during a run. */
  datatype Job = Job(world: World, workflow: Cid, run: seq<seq<Vertex>>, resources: map<Resource, seq<Byte>>)

  /** How far `resolve_cid` has come for one occurrence of a CID. */
  datatype Stage = AtLinkmap | AtResources | AtDb | AtNetwork | Done(answer: Option<InstructionResult<Arg>>)

  /** A spawned task, with its lookups so far. */
  datatype Running = Running(vertex: Vertex, wasm: seq<Byte>, lookups: map<Path, Stage>)

  datatype Status = Active | Failed

  datatype State = State(
    linkmap: map<Cid, InstructionResult<Arg>>,
    tables: Tables,
    running: map<nat, Running>,
    pending: Option<Receipt>,
    started: nat,
    open: bool,
    lost: bool,
    status: Status)

  /**
   What the outside decides in one step of a lookup: whether a connection is
   there, which matching row the query returns (none if it fails or nothing matches), what
   the network answers, and whether the commit of what it answered succeeds.
   */
  datatype Outside = Outside(conn: bool, row: Option<Cid>, found: Option<Receipt>, commits: bool)

  datatype Event =
    | StartBatch
    | Look(task: nat, at: Path, outside: Outside)
    | Join(task: nat)
    | Commit(ok: bool)
    | Lose(task: nat)
    | EndBatch
    | Gossip(receipt: Receipt)
    | Straggle(receipt: Receipt, ok: bool)
    | Abort

  // ---------------------------------------------------------------------------
  // Lookups of a task
  // ---------------------------------------------------------------------------

  /** The CID looked up at a position of the arguments, if any. */
  function LinkIn(args: seq<Input>, at: Path): Option<Cid> {
    if at == [] || at[0] >= |args| then None
    else
      match args[at[0]]
      case InDeferred(a) => if |at| == 1 then Some(a.instruction) else None
      case InArg(_) => None
      case InIpld(i) =>
        match ParseAwait(i)
        case Some(a) => if |at| == 1 then Some(a.instruction) else None
        case None => LinkAt(i, at[1..])
  }

  predicate Answered(lookups: map<Path, Stage>, at: Path) {
    at in lookups && lookups[at].Done?
  }

  /** Every link below the position has its answer. */
  predicate AllAnswered(i: Ipld, at: Path, lookups: map<Path, Stage>)
    decreases i
  {
    match i
    case Link(_) => Answered(lookups, at)
    case List(items) => forall k :: 0 <= k < |items| ==> AllAnswered(items[k], at + [k], lookups)
    case Map(es) => forall k :: 0 <= k < |es| ==> AllAnswered(es[k].value, at + [k], lookups)
    case _ => true
  }

  predicate InputAnswered(input: Input, at: Path, lookups: map<Path, Stage>) {
    match input
    case InDeferred(_) => Answered(lookups, at)
    case InArg(_) => true
    case InIpld(i) => if ParseAwait(i).Some? then Answered(lookups, at) else AllAnswered(i, at, lookups)
  }

  predicate Ready(r: Running) {
    forall k :: 0 <= k < |r.vertex.args| ==> InputAnswered(r.vertex.args[k], [k], r.lookups)
  }

  function AnswersOf(lookups: map<Path, Stage>): Answers {
    (p: Path) => if Answered(lookups, p) then lookups[p].answer else None
  }

  /** `Input::resolve`, with the answer each occurrence got. */
  function ResolveAt(c: Wit.Codec, input: Input, at: Path, answers: Answers): Input {
    match input
    case InIpld(i) =>
      (match ParseAwait(i)
       case Some(a) => ResolvePromise(a, answers(at))
       case None => InIpld(SubstAt(c, i, at, answers, false)))
    case InArg(_) => input
    case InDeferred(a) => ResolvePromise(a, answers(at))
  }

  function Resolved(c: Wit.Codec, r: Running): seq<Input> {
    seq(|r.vertex.args|, k requires 0 <= k < |r.vertex.args| => ResolveAt(c, r.vertex.args[k], [k], AnswersOf(r.lookups)))
  }

  lemma {:induction false} AllAnsweredAt(i: Ipld, at: Path, lookups: map<Path, Stage>, p: Path)
    requires AllAnswered(i, at, lookups) && LinkAt(i, p).Some?
    ensures Answered(lookups, at + p)
    decreases i
  {
    if p == [] {
      assert at + p == at;
    } else {
      assert at + [p[0]] + p[1..] == at + p;
      match i
      case List(items) => AllAnsweredAt(items[p[0]], at + [p[0]], lookups, p[1..]);
      case Map(es) => AllAnsweredAt(es[p[0]].value, at + [p[0]], lookups, p[1..]);
      case _ =>
    }
  }

  // ---------------------------------------------------------------------------
  // Steps
  // ---------------------------------------------------------------------------

  /** A commit succeeds when the database takes it and the workflow is stored. */
  predicate Commits(job: Job, t: Tables, ok: bool) {
    ok && job.workflow in t.workflows
  }

  function CommitIf(job: Job, t: Tables, r: Receipt, ok: bool): Tables {
    if Commits(job, t, ok) then Committed(t, job.workflow, r) else t
  }

  /** `insert_into_map`: an entry that is there stays. */
  function InsertNew(m: map<Cid, InstructionResult<Arg>>, c: Cid, r: InstructionResult<Arg>)
    : map<Cid, InstructionResult<Arg>>
  {
    if c in m then m else m[c := r]
  }

  datatype LookResult = LookResult(stage: Stage, linkmap: map<Cid, InstructionResult<Arg>>, tables: Tables)

  /** The row is one the query for the instruction may return first. */
  predicate IsRow(t: Tables, row: Cid, c: Cid) {
    row in t.receipts && t.receipts[row].instruction == c
  }

  /** One stage of `resolve_cid`: the linkmap, the fetched resources, the database, then the network. */
  ghost function ResolveCid(job: Job, st: State, c: Cid, stage: Stage, o: Outside): Option<LookResult> {
    var stay := (s: Stage) => Some(LookResult(s, st.linkmap, st.tables));
    match stage
    case AtLinkmap => if c in st.linkmap then stay(Done(Some(st.linkmap[c]))) else stay(AtResources)
    case AtResources =>
      if RCid(c) in job.resources then stay(Done(Some(ResOk(ArgIpld(Bytes(job.resources[RCid(c)])))))) else stay(AtDb)
    case AtDb =>
      if !o.conn then stay(Done(None))
      else if o.row.None? then stay(AtNetwork)
      else if IsRow(st.tables, o.row.value, c) then stay(Done(Some(OutputAsArg(st.tables.receipts[o.row.value]))))
      else None
    case AtNetwork =>
      (match o.found
       case None => stay(Done(None))
       case Some(r) =>
         if r.instruction != c then None
         else Some(LookResult(Done(Some(OutputAsArg(r))),
                              InsertNew(st.linkmap, c, OutputAsArg(r)),
                              CommitIf(job, st.tables, r, o.commits))))
    case Done(_) => None
  }

  function Meta(v: Vertex): Ipld {
    Map([Entry("op", String(v.fun))])
  }

  /** The receipt of a task that returned `o`. */
  function MakeReceipt(w: World, v: Vertex, o: Ipld): Receipt {
    Receipt(w.receiptCid(v.invocation, o, Meta(v)), v.invocation, v.cid, ResOk(o), Meta(v))
  }

  /** The tasks of a batch that are spawned: operations without a handler are skipped. */
  function Spawned(job: Job, batch: seq<Vertex>): map<nat, Running>
    requires Fetched(job, batch)
  {
    map k: nat | k < |batch| && batch[k].op == WASM_OP :: Running(batch[k], job.resources[RUrl(batch[k].url)], map[])
  }

  /** Every task that has a handler has its module. */
  predicate Fetched(job: Job, batch: seq<Vertex>) {
    forall k :: 0 <= k < |batch| && batch[k].op == WASM_OP ==> RUrl(batch[k].url) in job.resources
  }

  ghost function ExecuteTask(w: World, r: Running): Option<Output> {
    Execute(w, r.wasm, r.vertex.fun, Resolved(w.codec, r))
  }

  ghost function Start(job: Job, st: State): Option<State> {
    if st.open || st.started >= |job.run| then None
    else
      var batch := job.run[st.started];
      if Fetched(job, batch)
      then Some(st.(running := Spawned(job, batch), started := st.started + 1, open := true))
      else Some(st.(status := Failed))
  }

  ghost function LookUp(job: Job, st: State, task: nat, at: Path, o: Outside): Option<State> {
    if !st.open || task !in st.running then None
    else
      var r := st.running[task];
      match LinkIn(r.vertex.args, at)
      case None => None
      case Some(c) =>
        match ResolveCid(job, st, c, if at in r.lookups then r.lookups[at] else AtLinkmap, o)
        case None => None
        case Some(res) =>
          Some(st.(linkmap := res.linkmap, tables := res.tables,
                   running := st.running[task := r.(lookups := r.lookups[at := res.stage])]))
  }

  ghost function JoinNext(job: Job, st: State, task: nat): Option<State> {
    if !st.open || task !in st.running || st.pending.Some? || !Ready(st.running[task]) then None
    else
      var r := st.running[task];
      match ExecuteTask(job.world, r)
      case None => None
      case Some(out) =>
        match OutputToIpld(job.world.codec, out)
        case Err(_) => Some(st.(running := st.running - {task}, status := Failed))
        case Ok(o) =>
          var receipt := MakeReceipt(job.world, r.vertex, o);
          Some(st.(running := st.running - {task},
                   linkmap := st.linkmap[r.vertex.cid := OutputAsArg(receipt)],
                   pending := Some(receipt)))
  }

  ghost function CommitPending(job: Job, st: State, ok: bool): Option<State> {
    if st.pending.None? then None
    else if Commits(job, st.tables, ok)
    then Some(st.(tables := Committed(st.tables, job.workflow, st.pending.value), pending := None))
    else Some(st.(status := Failed))
  }

  /** A task failed, panicked or was aborted: the join loop ends and the tasks still running are dropped. */
  ghost function LoseBatch(st: State, task: nat): Option<State> {
    if !st.open || task !in st.running || st.pending.Some? then None
    else Some(st.(running := map[], open := false, lost := true))
  }

  ghost function End(st: State): Option<State> {
    if !st.open || st.running != map[] || st.pending.Some? then None else Some(st.(open := false))
  }

  /** Events that are not the worker's own: they happen in any state. */
  predicate External(ev: Event) {
    ev.Gossip? || ev.Straggle? || ev.Abort?
  }

  /** One step of the run, or `None` when the event cannot happen in the state. */
  ghost function Next(job: Job, st: State, ev: Event): Option<State> {
    if st.status == Failed && !External(ev) then None
    else
      match ev
      case Gossip(r) => Some(st.(tables := Stored(st.tables, r)))
      case Straggle(r, ok) =>
        Some(st.(linkmap := InsertNew(st.linkmap, r.instruction, OutputAsArg(r)),
                 tables := CommitIf(job, st.tables, r, ok)))
      case Abort => Some(st.(status := Failed))
      case StartBatch => Start(job, st)
      case Look(task, at, o) => LookUp(job, st, task, at, o)
      case Join(task) => JoinNext(job, st, task)
      case Commit(ok) => CommitPending(job, st, ok)
      case Lose(task) => LoseBatch(st, task)
      case EndBatch => End(st)
  }

  /** All a lookup can change besides its own stage: the network's answer is stored and linked. */
  lemma LookEffect(job: Job, st: State, task: nat, at: Path, o: Outside)
    requires LookUp(job, st, task, at, o).Some?
    ensures var st' := LookUp(job, st, task, at, o).value;
            && task in st.running
            && (if at in st.running[task].lookups && st.running[task].lookups[at] == AtNetwork && o.found.Some? then
                  && LinkIn(st.running[task].vertex.args, at) == Some(o.found.value.instruction)
                  && st'.linkmap == InsertNew(st.linkmap, o.found.value.instruction, OutputAsArg(o.found.value))
                  && st'.tables == CommitIf(job, st.tables, o.found.value, o.commits)
                else st'.linkmap == st.linkmap && st'.tables == st.tables)
            && st' == st.(linkmap := st'.linkmap, tables := st'.tables, running := st'.running)
            && st'.running.Keys == st.running.Keys
            && forall t :: t in st.running ==>
                 st'.running[t] == st.running[t].(lookups := st'.running[t].lookups)
  {
  }

  /**
   What a receipt from outside does. By gossip it is stored, and neither linked nor joined to the
   workflow; as a late answer it is linked, unless its instruction is, and committed if it can be.
   No receipt or link that is there changes.
   */
  lemma HearEffect(job: Job, st: State, r: Receipt, ok: bool)
    ensures var st' := Next(job, st, Gossip(r)).value;
            && st' == st.(tables := st'.tables) && r.cid in st'.tables.receipts
            && (r.cid !in st.tables.receipts ==> st'.tables.receipts[r.cid] == r)
            && (forall k :: k in st'.tables.receipts && k != r.cid ==> k in st.tables.receipts)
            && (forall k :: k in st.tables.receipts ==>
                  k in st'.tables.receipts && st'.tables.receipts[k] == st.tables.receipts[k])
            && st'.tables.joins == st.tables.joins && st'.tables.workflows == st.tables.workflows
    ensures var st' := Next(job, st, Straggle(r, ok)).value;
            && st' == st.(tables := st'.tables, linkmap := st'.linkmap)
            && (forall c :: c in st'.linkmap <==> c in st.linkmap || c == r.instruction)
            && (forall c :: c in st.linkmap ==> st'.linkmap[c] == st.linkmap[c])
            && (r.instruction !in st.linkmap ==> st'.linkmap[r.instruction] == OutputAsArg(r))
            && (!ok || job.workflow !in st.tables.workflows ==> st'.tables == st.tables)
            && (ok && job.workflow in st.tables.workflows ==>
                  && r.cid in st'.tables.receipts && (job.workflow, r.cid) in st'.tables.joins
                  && (r.cid !in st.tables.receipts ==> st'.tables.receipts[r.cid] == r))
  {
  }

  /** What joining a task does: its receipt is linked and waits to be committed. */
  lemma JoinEffect(job: Job, st: State, task: nat)
    requires JoinNext(job, st, task).Some?
    ensures var st' := JoinNext(job, st, task).value;
            && task in st.running && st.pending.None?
            && (|| st' == st.(running := st.running - {task}, status := Failed)
                || exists o :: st' == Joined(job, st, task, o))
            && (st'.pending.None? ==> st' == st.(running := st.running - {task}, status := Failed))
            && (st'.pending.Some? ==>
                  && st'.pending.value.instruction == st.running[task].vertex.cid && st'.pending.value.out.ResOk?
                  && st' == st.(running := st.running - {task}, pending := st'.pending, linkmap := st'.linkmap)
                  && st'.linkmap == st.linkmap[st.running[task].vertex.cid := ResOk(ArgIpld(st'.pending.value.out.inner))])
  {
    var out := ExecuteTask(job.world, st.running[task]).value;
    if OutputToIpld(job.world.codec, out).Ok? {
      assert JoinNext(job, st, task).value == Joined(job, st, task, OutputToIpld(job.world.codec, out).value);
    }
  }

  ghost function Joined(job: Job, st: State, task: nat, o: Ipld): State
    requires task in st.running
  {
    var receipt := MakeReceipt(job.world, st.running[task].vertex, o);
    st.(running := st.running - {task},
        linkmap := st.linkmap[st.running[task].vertex.cid := OutputAsArg(receipt)],
        pending := Some(receipt))
  }

  ghost function Run(job: Job, st: State, evs: seq<Event>): Option<State> {
    if evs == [] then Some(st)
    else
      match Run(job, st, evs[..|evs| - 1])
      case None => None
      case Some(mid) => Next(job, mid, evs[|evs| - 1])
  }

  /** The state a worker starts from. */
  function Initial(linkmap: map<Cid, InstructionResult<Arg>>, tables: Tables): State {
    State(linkmap, tables, map[], None, 0, false, false, Active)
  }

  /** All batches ran and every task was joined and committed. */
  predicate Succeeded(job: Job, st: State) {
    st.status == Active && st.started == |job.run| && !st.open && !st.lost
  }
}
