/**
 Interleaving independence: a batch whose tasks all succeed leaves the same linkmap
 and the same tables under every order of its lookups, its completions and its commits.
 */
module Interleaving {
  import opened Wrappers
  import opened IpldModel
  import opened Inputs
  import opened Workflows
  import opened Execution
  import opened Database
  import opened Scheduler
  import opened Worker
  import opened WorkerSafety
  import opened WorkerProgress

  /** What the network answers for a CID while the batch runs. */
  type Net = Cid -> Option<Receipt>

  /**
   The batch, the state right after it was started, the network, the receipts gossip
   stores meanwhile, the answer each lookup gets, and the receipt each task makes.
   */
  datatype Setting = Setting(
    job: Job, st: State, net: Net, heard: set<Receipt>, batch: seq<Vertex>, ans: Lookup, made: int -> Option<Receipt>)

  ghost predicate LooksUp(x: Setting, c: Cid) {
    exists k, p :: 0 <= k < |x.batch| && x.batch[k].op == WASM_OP && LinkIn(x.batch[k].args, p) == Some(c)
  }

  ghost predicate InBatch(x: Setting, c: Cid) {
    exists k :: 0 <= k < |x.batch| && x.batch[k].op == WASM_OP && x.batch[k].cid == c
  }

  /**
   The batch was just started, its tasks have distinct CIDs and look up none of them,
   receipts of one instruction agree, and the network answers what it is asked.
   */
  ghost predicate Setup(u: Universe, x: Setting) {
    && HashedJob(u, x.job) && HashedState(u, x.job, x.st)
    && x.st.status == Active && x.st.open && x.st.pending.None?
    && x.job.workflow in x.st.tables.workflows && OneOutputEach(x.st.tables)
    && Fetched(x.job, x.batch) && x.st.running == Spawned(x.job, x.batch)
    && (forall i, j :: 0 <= i < j < |x.batch| ==> x.batch[i].cid != x.batch[j].cid)
    && (forall c :: x.net(c).Some? ==> x.net(c).value.instruction == c && Hashes(u, x.net(c).value))
    && (forall k :: 0 <= k < |x.batch| ==> InRun(x.job, x.batch[k]))
    && (forall c :: LooksUp(x, c) ==> !InBatch(x, c))
    && (forall r :: r in x.heard ==> Hashes(u, r) && Harmless(x, r))
  }

  /** The instruction of the receipt is linked or fetched, or has receipts already, with the same output. */
  ghost predicate Foretold(job: Job, st: State, r: Receipt) {
    var c := r.instruction;
    || c in st.linkmap || RCid(c) in job.resources
    || (HasInstruction(st.tables, c)
        && forall k :: IsRow(st.tables, k, c) ==> OutputAsArg(st.tables.receipts[k]) == OutputAsArg(r))
  }

  /** What gossip brings for a CID that is looked up was foretold. */
  ghost predicate Harmless(x: Setting, r: Receipt) {
    LooksUp(x, r.instruction) ==> Foretold(x.job, x.st, r)
  }

  ghost predicate Valid(u: Universe, x: Setting) {
    && Setup(u, x)
    && (forall k :: 0 <= k < |x.batch| && x.made(k).Some? ==> x.made(k).value.instruction == x.batch[k].cid)
  }

  ghost predicate AnswersOk(x: Setting) {
    forall c :: IsAnswer(x, c, x.ans(c))
  }

  /** Only the network knows the CID. */
  ghost predicate Remote(x: Setting, c: Cid) {
    && c !in x.st.linkmap && RCid(c) !in x.job.resources && !HasInstruction(x.st.tables, c)
  }

  /** The one answer a lookup of the CID gets, whenever it is made. */
  ghost predicate IsAnswer(x: Setting, c: Cid, a: Option<InstructionResult<Arg>>) {
    if c in x.st.linkmap then a == Some(x.st.linkmap[c])
    else if RCid(c) in x.job.resources then a == Some(ResOk(ArgIpld(Bytes(x.job.resources[RCid(c)]))))
    else if HasInstruction(x.st.tables, c) then
      forall k :: IsRow(x.st.tables, k, c) ==> a == Some(OutputAsArg(x.st.tables.receipts[k]))
    else a == (match x.net(c) case Some(r) => Some(OutputAsArg(r)) case None => None)
  }

  /** The CID enters the linkmap from the network while the batch runs. */
  ghost predicate Arrives(x: Setting, c: Cid) {
    LooksUp(x, c) && Remote(x, c) && x.net(c).Some?
  }

  // ---------------------------------------------------------------------------
  // What a task returns
  // ---------------------------------------------------------------------------

  ghost function Ideal(c: Wit.Codec, input: Input, f: Lookup): Input {
    if Substituted(input) then InIpld(Subst(c, input.ipld, f, false)) else ResolveInput(c, input, f)
  }

  ghost function IdealArgs(c: Wit.Codec, args: seq<Input>, f: Lookup): seq<Input> {
    seq(|args|, k requires 0 <= k < |args| => Ideal(c, args[k], f))
  }

  ghost function OutputOf(job: Job, ans: Lookup, v: Vertex): Option<Ipld>
    requires RUrl(v.url) in job.resources
  {
    match Execute(job.world, job.resources[RUrl(v.url)], v.fun, IdealArgs(job.world.codec, v.args, ans))
    case None => None
    case Some(out) =>
      match OutputToIpld(job.world.codec, out)
      case Ok(o) => Some(o)
      case Err(_) => None
  }

  /** The receipt a task makes of what it returns. */
  ghost function ReceiptOf(job: Job, ans: Lookup, v: Vertex): Option<Receipt>
    requires RUrl(v.url) in job.resources
  {
    match OutputOf(job, ans, v)
    case Some(o) => Some(MakeReceipt(job.world, v, o))
    case None => None
  }

  ghost predicate Determined(x: Setting)
    requires Fetched(x.job, x.batch)
  {
    forall k :: 0 <= k < |x.batch| && x.batch[k].op == WASM_OP ==> x.made(k) == ReceiptOf(x.job, x.ans, x.batch[k])
  }

  /** A stage reached by a lookup is one its answer passes through. */
  ghost predicate OnTheWay(x: Setting, c: Cid, s: Stage) {
    match s
    case AtLinkmap => true
    case AtResources => c !in x.st.linkmap
    case AtDb => c !in x.st.linkmap && RCid(c) !in x.job.resources
    case AtNetwork => Remote(x, c)
    case Done(a) => a == x.ans(c)
  }

  lemma ReadyArgs(c: Wit.Codec, r: Running, f: Lookup)
    requires Ready(r)
    requires forall p :: Answered(r.lookups, p) && LinkIn(r.vertex.args, p).Some? ==>
               r.lookups[p].answer == f(LinkIn(r.vertex.args, p).value)
    ensures Resolved(c, r) == IdealArgs(c, r.vertex.args, f)
  {
    var args := r.vertex.args;
    forall k | 0 <= k < |args| ensures Resolved(c, r)[k] == Ideal(c, args[k], f) {
      assert InputAnswered(args[k], [k], r.lookups);
      if Substituted(args[k]) {
        var i, answers := args[k].ipld, AnswersOf(r.lookups);
        forall p | LinkAt(i, p).Some? ensures answers([k] + p) == f(LinkAt(i, p).value) {
          AllAnsweredAt(i, [k], r.lookups, p);
          assert ([k] + p)[1..] == p && LinkIn(args, [k] + p) == LinkAt(i, p);
        }
        SubstAtAgrees(c, i, [k], answers, f, false);
      } else if !args[k].InArg? {
        assert LinkIn(args, [k]).Some?;
      }
    }
  }

  // ---------------------------------------------------------------------------
  // The states in between
  // ---------------------------------------------------------------------------

  /** Task `k` has been joined. */
  predicate Finished(x: Setting, st: State, k: int) {
    0 <= k < |x.batch| && x.batch[k].op == WASM_OP && k !in st.running
  }

  ghost predicate RunningOk(x: Setting, st: State)
    requires Fetched(x.job, x.batch)
  {
    forall t :: t in st.running ==>
      && t < |x.batch| && x.batch[t].op == WASM_OP && st.running[t].vertex == x.batch[t]
      && st.running[t].wasm == x.job.resources[RUrl(x.batch[t].url)]
      && forall p :: p in st.running[t].lookups && LinkIn(x.batch[t].args, p).Some? ==>
           OnTheWay(x, LinkIn(x.batch[t].args, p).value, st.running[t].lookups[p])
  }

  /** The linkmap: what it held, what arrived, and the outputs of the tasks joined so far. */
  ghost predicate LinkmapOk(x: Setting, st: State)
    requires Fetched(x.job, x.batch)
  {
    && (forall c :: c in x.st.linkmap ==> c in st.linkmap)
    && (forall c :: c in st.linkmap && !InBatch(x, c) ==> x.ans(c) == Some(st.linkmap[c]))
    && (forall c :: c in st.linkmap && !InBatch(x, c) ==> c in x.st.linkmap || Arrives(x, c))
    && (forall k :: Finished(x, st, k) ==>
          x.batch[k].cid in st.linkmap && x.made(k).Some? && st.linkmap[x.batch[k].cid] == OutputAsArg(x.made(k).value))
    && (forall t :: t in st.running && t < |x.batch| && x.batch[t].cid in st.linkmap ==>
          x.batch[t].cid in x.st.linkmap && st.linkmap[x.batch[t].cid] == x.st.linkmap[x.batch[t].cid])
  }

  /** Every CID that was answered and only the network knew has arrived. */
  ghost predicate ArrivedOk(x: Setting, st: State) {
    && (forall k, p :: Finished(x, st, k) && LinkIn(x.batch[k].args, p).Some? && Arrives(x, LinkIn(x.batch[k].args, p).value)
          ==> LinkIn(x.batch[k].args, p).value in st.linkmap)
    && (forall t, p :: t in st.running && t < |x.batch| && Answered(st.running[t].lookups, p)
          && LinkIn(x.batch[t].args, p).Some? && Arrives(x, LinkIn(x.batch[t].args, p).value)
          ==> LinkIn(x.batch[t].args, p).value in st.linkmap)
  }

  /** The receipt was committed while the batch ran. */
  ghost predicate Added(x: Setting, st: State, r: Receipt)
    requires Fetched(x.job, x.batch)
  {
    || (exists c :: Arrives(x, c) && c in st.linkmap && x.net(c) == Some(r))
    || (exists k :: Finished(x, st, k) && x.made(k) == Some(r) && st.pending != Some(r))
  }

  /** Tables `t`: what `t0` held, the receipts in `added`, committed for the workflow, and some that were `heard`. */
  ghost predicate Account(t0: Tables, t: Tables, workflow: Cid, heard: set<Receipt>, added: Receipt -> bool) {
    && Grows(t0, t)
    && (forall k :: k in t.receipts && k !in t0.receipts ==> added(t.receipts[k]) || t.receipts[k] in heard)
    && (forall r :: added(r) ==> r.cid in t.receipts)
    && (forall w, k :: (w, k) in t.joins <==> (w, k) in t0.joins || (w == workflow && exists r :: added(r) && r.cid == k))
  }

  ghost function AddedIn(x: Setting, st: State): Receipt -> bool
    requires Fetched(x.job, x.batch)
  {
    (r: Receipt) => Added(x, st, r)
  }

  /** The tables: what they held, and what was committed while the batch ran. */
  ghost predicate TablesOk(x: Setting, st: State)
    requires Fetched(x.job, x.batch)
  {
    Account(x.st.tables, st.tables, x.job.workflow, x.heard, AddedIn(x, st))
  }

  /** Committing one more receipt keeps the account of the tables. */
  lemma CommitAdds(
    u: Universe, job: Job, t0: Tables, t: Tables, heard: set<Receipt>,
    added: Receipt -> bool, added': Receipt -> bool, r: Receipt)
    requires HashedTables(u, t) && Hashes(u, r) && job.workflow in t.workflows
    requires Account(t0, t, job.workflow, heard, added)
    requires forall q :: added'(q) <==> added(q) || q == r
    ensures Account(t0, Committed(t, job.workflow, r), job.workflow, heard, added')
  {
    var t' := Committed(t, job.workflow, r);
    CommitStores(u, job, t, r);
    forall w, k
      ensures (w, k) in t'.joins <==> (w, k) in t0.joins || (w == job.workflow && exists q :: added'(q) && q.cid == k)
    {
      if (w, k) in t.joins && (w, k) !in t0.joins {
        var q :| added(q) && q.cid == k;
        assert added'(q);
      }
      if (w, k) == (job.workflow, r.cid) { assert added'(r); }
    }
  }

  /** The account depends only on which receipts were added. */
  lemma AccountSame(
    t0: Tables, t: Tables, workflow: Cid, heard: set<Receipt>, added: Receipt -> bool, added': Receipt -> bool)
    requires Account(t0, t, workflow, heard, added) && forall q :: added'(q) <==> added(q)
    ensures Account(t0, t, workflow, heard, added')
  {
    forall w, k
      ensures (w, k) in t.joins <==> (w, k) in t0.joins || (w == workflow && exists q :: added'(q) && q.cid == k)
    {
      if q :| added(q) && q.cid == k { assert added'(q); }
      if q :| added'(q) && q.cid == k { assert added(q); }
    }
  }

  ghost predicate PendingOk(x: Setting, st: State)
  {
    st.pending.Some? ==> exists k :: Finished(x, st, k) && x.made(k) == Some(st.pending.value)
  }

  ghost predicate Between(u: Universe, x: Setting, st: State)
    requires Fetched(x.job, x.batch)
  {
    && HashedState(u, x.job, st) && st.status == Active && st.open
    && RunningOk(x, st) && LinkmapOk(x, st) && ArrivedOk(x, st) && TablesOk(x, st) && PendingOk(x, st)
  }

  /** Steps of the batch, lookups that are answered, completions and commits that succeed, and gossip. */
  ghost predicate Calm(x: Setting, st: State, ev: Event) {
    match ev
    case Look(t, p, o) =>
      && o.conn && o.commits
      && (t in st.running && LinkIn(st.running[t].vertex.args, p).Some? ==>
            && o.found == x.net(LinkIn(st.running[t].vertex.args, p).value)
            && (HasInstruction(st.tables, LinkIn(st.running[t].vertex.args, p).value) ==> o.row.Some?))
    case Join(_) => true
    case Commit(ok) => ok
    case Gossip(r) => r in x.heard
    case _ => false
  }

  lemma BetweenStart(u: Universe, x: Setting)
    requires Valid(u, x) && AnswersOk(x)
    ensures Between(u, x, x.st)
  {
    NoneFinished(x);
    LinkmapStart(x);
    AccountStart(x);
  }

  lemma NoneFinished(x: Setting)
    requires Fetched(x.job, x.batch) && x.st.running == Spawned(x.job, x.batch)
    ensures RunningOk(x, x.st) && ArrivedOk(x, x.st) && forall k :: !Finished(x, x.st, k)
  {
  }

  lemma LinkmapStart(x: Setting)
    requires Fetched(x.job, x.batch) && AnswersOk(x) && forall k :: !Finished(x, x.st, k)
    ensures LinkmapOk(x, x.st)
  {
    forall c | c in x.st.linkmap ensures x.ans(c) == Some(x.st.linkmap[c]) { assert IsAnswer(x, c, x.ans(c)); }
  }

  lemma AccountStart(x: Setting)
    requires Fetched(x.job, x.batch) && forall k :: !Finished(x, x.st, k)
    ensures TablesOk(x, x.st)
  {
    forall r ensures !AddedIn(x, x.st)(r) { }
  }

  lemma HeardAnswers(x: Setting, r: Receipt)
    requires Harmless(x, r) && AnswersOk(x) && LooksUp(x, r.instruction)
    requires r.instruction !in x.st.linkmap && RCid(r.instruction) !in x.job.resources
    ensures x.ans(r.instruction) == Some(OutputAsArg(r)) && !Arrives(x, r.instruction)
  {
    assert IsAnswer(x, r.instruction, x.ans(r.instruction));
    var k :| k in x.st.tables.receipts && x.st.tables.receipts[k].instruction == r.instruction;
    assert IsRow(x.st.tables, k, r.instruction);
  }

  /** Receipts of a CID that is looked up, stored while the batch runs, all give its answer. */
  lemma RowAnswers(u: Universe, x: Setting, st: State, row: Cid, c: Cid)
    requires Valid(u, x) && AnswersOk(x) && Between(u, x, st) && LooksUp(x, c)
    requires c !in x.st.linkmap && RCid(c) !in x.job.resources && IsRow(st.tables, row, c)
    ensures x.ans(c) == Some(OutputAsArg(st.tables.receipts[row]))
    ensures Arrives(x, c) ==> c in st.linkmap
  {
    assert IsAnswer(x, c, x.ans(c));
    var r := st.tables.receipts[row];
    if row in x.st.tables.receipts {
      assert IsRow(x.st.tables, row, c);
    } else if r in x.heard {
      HeardAnswers(x, r);
    } else {
      assert AddedIn(x, st)(r);
      assert !exists k :: Finished(x, st, k) && x.made(k) == Some(r) && st.pending != Some(r);
      var c' :| Arrives(x, c') && c' in st.linkmap && x.net(c') == Some(r);
      assert c' == c;
    }
  }

  lemma StageMoves(u: Universe, x: Setting, st: State, c: Cid, stage: Stage, o: Outside)
    requires Valid(u, x) && AnswersOk(x) && Between(u, x, st) && LooksUp(x, c) && OnTheWay(x, c, stage)
    requires o.conn && o.commits && o.found == x.net(c) && ResolveCid(x.job, st, c, stage, o).Some?
    requires HasInstruction(st.tables, c) ==> o.row.Some?
    ensures LookMoves(x, st, c, ResolveCid(x.job, st, c, stage, o).value)
  {
    assert IsAnswer(x, c, x.ans(c));
    assert !InBatch(x, c);
    match stage
    case AtDb =>
      if o.row.Some? { RowAnswers(u, x, st, o.row.value, c); }
      else { GrowsKeeps(x.st.tables, st.tables, c); }
    case _ =>
  }

  lemma LookStep(u: Universe, x: Setting, st: State, task: nat, at: Path, o: Outside)
    requires Valid(u, x) && AnswersOk(x) && Between(u, x, st) && Calm(x, st, Look(task, at, o))
    requires LookUp(x.job, st, task, at, o).Some?
    ensures Between(u, x, LookUp(x.job, st, task, at, o).value)
  {
    var st' := LookUp(x.job, st, task, at, o).value;
    var r := st.running[task];
    var c := LinkIn(r.vertex.args, at).value;
    var stage := if at in r.lookups then r.lookups[at] else AtLinkmap;
    var res := ResolveCid(x.job, st, c, stage, o).value;
    LookPlaced(x, st, task, at, c);
    assert HashedState(u, x.job, st') by { LookHashed(u, x.job, st, task, at, o); }
    assert LookMoves(x, st, c, res) by { StageMoves(u, x, st, c, stage, o); }
    LookBetween(u, x, st, st', task, at, c, res);
  }

  /** What a stage of a lookup of `c` may do. */
  ghost predicate LookMoves(x: Setting, st: State, c: Cid, res: LookResult) {
    && OnTheWay(x, c, res.stage)
    && (res.stage.Done? && Arrives(x, c) ==> c in res.linkmap)
    && (|| (res.linkmap == st.linkmap && res.tables == st.tables)
        || (Arrives(x, c) && res.linkmap == InsertNew(st.linkmap, c, OutputAsArg(x.net(c).value))
            && res.tables == Committed(st.tables, x.job.workflow, x.net(c).value)))
  }

  lemma LookBetween(u: Universe, x: Setting, st: State, st': State, task: nat, at: Path, c: Cid, res: LookResult)
    requires Valid(u, x) && AnswersOk(x) && Between(u, x, st) && HashedState(u, x.job, st') && LookMoves(x, st, c, res)
    requires task in st.running && task < |x.batch| && LinkIn(x.batch[task].args, at) == Some(c)
    requires st' == st.(linkmap := res.linkmap, tables := res.tables,
                        running := st.running[
                          task := st.running[task].(lookups := st.running[task].lookups[at := res.stage])])
    ensures Between(u, x, st')
  {
    LookStores(u, x, st, st', c, res);
    LookRunning(x, st, st', task, at, c, res.stage);
  }

  lemma LookPlaced(x: Setting, st: State, task: nat, at: Path, c: Cid)
    requires Fetched(x.job, x.batch) && RunningOk(x, st) && task in st.running
    requires LinkIn(st.running[task].vertex.args, at) == Some(c)
    ensures task < |x.batch| && st.running[task].vertex == x.batch[task] && LooksUp(x, c)
    ensures OnTheWay(x, c, if at in st.running[task].lookups then st.running[task].lookups[at] else AtLinkmap)
  {
  }

  /** A lookup leaves linkmap and tables alone, or stores what arrived. */
  lemma LookStores(u: Universe, x: Setting, st: State, st': State, c: Cid, res: LookResult)
    requires Valid(u, x) && AnswersOk(x) && Between(u, x, st)
    requires st'.linkmap == res.linkmap && st'.tables == res.tables
    requires st'.pending == st.pending && st'.running.Keys == st.running.Keys && LookMoves(x, st, c, res)
    ensures LinkmapOk(x, st') && TablesOk(x, st') && PendingOk(x, st')
  {
    if res.linkmap == st.linkmap && res.tables == st.tables {
      QuietStep(x, st, st');
    } else {
      ArrivalStep(u, x, st, st', c);
    }
  }

  lemma ArrivalStep(u: Universe, x: Setting, st: State, st': State, c: Cid)
    requires Valid(u, x) && AnswersOk(x) && Between(u, x, st) && Arrives(x, c)
    requires st'.linkmap == InsertNew(st.linkmap, c, OutputAsArg(x.net(c).value))
    requires st'.tables == Committed(st.tables, x.job.workflow, x.net(c).value)
    requires st'.pending == st.pending && st'.running.Keys == st.running.Keys
    ensures LinkmapOk(x, st') && TablesOk(x, st') && PendingOk(x, st')
  {
    ArrivalAdded(x, st, st', c);
    assert IsAnswer(x, c, x.ans(c)) && !InBatch(x, c);
    ArrivalLinkmap(x, st, st', c);
    CommitAdds(u, x.job, x.st.tables, st.tables, x.heard, AddedIn(x, st), AddedIn(x, st'), x.net(c).value);
  }

  lemma LookRunning(x: Setting, st: State, st': State, task: nat, at: Path, c: Cid, s: Stage)
    requires Fetched(x.job, x.batch) && RunningOk(x, st) && ArrivedOk(x, st)
    requires task in st.running && LinkIn(x.batch[task].args, at) == Some(c)
    requires st'.running == st.running[task := st.running[task].(lookups := st.running[task].lookups[at := s])]
    requires OnTheWay(x, c, s) && (s.Done? && Arrives(x, c) ==> c in st'.linkmap)
    requires forall d :: d in st.linkmap ==> d in st'.linkmap
    ensures RunningOk(x, st') && ArrivedOk(x, st')
  {
    assert forall k :: Finished(x, st', k) ==> Finished(x, st, k);
    forall t | t in st'.running
      ensures && t < |x.batch| && x.batch[t].op == WASM_OP && st'.running[t].vertex == x.batch[t]
              && st'.running[t].wasm == x.job.resources[RUrl(x.batch[t].url)]
              && forall p :: p in st'.running[t].lookups && LinkIn(x.batch[t].args, p).Some? ==>
                   OnTheWay(x, LinkIn(x.batch[t].args, p).value, st'.running[t].lookups[p])
    {
      assert t in st.running;
    }
    forall t, p | t in st'.running && t < |x.batch| && Answered(st'.running[t].lookups, p)
                  && LinkIn(x.batch[t].args, p).Some? && Arrives(x, LinkIn(x.batch[t].args, p).value)
      ensures LinkIn(x.batch[t].args, p).value in st'.linkmap
    {
      if t != task || p != at { assert Answered(st.running[t].lookups, p); }
    }
  }

  lemma QuietStep(x: Setting, st: State, st': State)
    requires Fetched(x.job, x.batch) && LinkmapOk(x, st) && TablesOk(x, st) && PendingOk(x, st)
    requires st'.linkmap == st.linkmap && st'.tables == st.tables && st'.pending == st.pending
    requires st'.running.Keys == st.running.Keys
    ensures LinkmapOk(x, st') && TablesOk(x, st') && PendingOk(x, st')
  {
    assert forall k :: Finished(x, st', k) <==> Finished(x, st, k);
    AccountSame(x.st.tables, st.tables, x.job.workflow, x.heard, AddedIn(x, st), AddedIn(x, st'));
  }

  lemma ArrivalAdded(x: Setting, st: State, st': State, c: Cid)
    requires Fetched(x.job, x.batch) && Arrives(x, c)
    requires st'.linkmap == InsertNew(st.linkmap, c, OutputAsArg(x.net(c).value))
    requires st'.pending == st.pending && st'.running.Keys == st.running.Keys
    ensures forall k :: Finished(x, st', k) <==> Finished(x, st, k)
    ensures forall q :: Added(x, st', q) <==> Added(x, st, q) || Some(q) == x.net(c)
  {
    forall q | Added(x, st', q) ensures Added(x, st, q) || Some(q) == x.net(c) {
      if c' :| Arrives(x, c') && c' in st'.linkmap && x.net(c') == Some(q) {
        assert c' in st.linkmap || c' == c;
      }
    }
    forall q | Added(x, st, q) || Some(q) == x.net(c) ensures Added(x, st', q) {
      if Some(q) == x.net(c) { assert c in st'.linkmap; }
      else if c' :| Arrives(x, c') && c' in st.linkmap && x.net(c') == Some(q) { assert c' in st'.linkmap; }
    }
  }

  lemma ArrivalLinkmap(x: Setting, st: State, st': State, c: Cid)
    requires Fetched(x.job, x.batch) && LinkmapOk(x, st) && RunningOk(x, st) && Arrives(x, c) && !InBatch(x, c)
    requires x.ans(c) == Some(OutputAsArg(x.net(c).value))
    requires st'.linkmap == InsertNew(st.linkmap, c, OutputAsArg(x.net(c).value)) && st'.running.Keys == st.running.Keys
    ensures LinkmapOk(x, st')
  {
    forall k | Finished(x, st', k)
      ensures x.batch[k].cid in st'.linkmap && x.made(k).Some? && st'.linkmap[x.batch[k].cid] == OutputAsArg(x.made(k).value)
    {
      assert Finished(x, st, k) && InBatch(x, x.batch[k].cid);
    }
    forall t | t in st'.running && t < |x.batch| && x.batch[t].cid in st'.linkmap
      ensures x.batch[t].cid in x.st.linkmap && st'.linkmap[x.batch[t].cid] == x.st.linkmap[x.batch[t].cid]
    {
      assert t in st.running && InBatch(x, x.batch[t].cid);
    }
  }

  // ---------------------------------------------------------------------------
  // Joining and committing
  // ---------------------------------------------------------------------------

  /** A task that is joined returns the output its answers determine. */
  lemma JoinOutput(x: Setting, st: State, task: nat)
    requires Fetched(x.job, x.batch) && RunningOk(x, st) && Determined(x) && JoinNext(x.job, st, task).Some?
    requires JoinNext(x.job, st, task).value.status == Active
    ensures task in st.running && st.pending.None? && Ready(st.running[task]) && x.made(task).Some?
    ensures JoinNext(x.job, st, task).value ==
            st.(running := st.running - {task},
                linkmap := st.linkmap[x.batch[task].cid := OutputAsArg(x.made(task).value)],
                pending := x.made(task))
  {
    var r := st.running[task];
    assert r.vertex == x.batch[task];
    assert Resolved(x.job.world.codec, r) == IdealArgs(x.job.world.codec, r.vertex.args, x.ans) by {
      ReadyArgs(x.job.world.codec, r, x.ans);
    }
    assert x.made(task) == ReceiptOf(x.job, x.ans, x.batch[task]);
  }

  lemma JoinStep(u: Universe, x: Setting, st: State, task: nat)
    requires Valid(u, x) && Determined(x) && Between(u, x, st) && JoinNext(x.job, st, task).Some?
    requires JoinNext(x.job, st, task).value.status == Active
    ensures Between(u, x, JoinNext(x.job, st, task).value)
  {
    var st' := JoinNext(x.job, st, task).value;
    JoinOutput(x, st, task);
    assert HashedState(u, x.job, st') by { JoinHashed(u, x.job, st, task); }
    JoinKeeps(u, x, st, st', task);
  }

  lemma JoinKeeps(u: Universe, x: Setting, st: State, st': State, task: nat)
    requires Valid(u, x) && Between(u, x, st) && HashedState(u, x.job, st')
    requires task in st.running && task < |x.batch| && st.pending.None? && Ready(st.running[task]) && x.made(task).Some?
    requires st' == st.(running := st.running - {task},
                        linkmap := st.linkmap[x.batch[task].cid := OutputAsArg(x.made(task).value)],
                        pending := x.made(task))
    ensures Between(u, x, st')
  {
    var r := x.made(task).value;
    assert LinkmapOk(x, st') by { JoinLinkmap(x, st, st', task, r); }
    assert ArrivedOk(x, st') by { JoinArrived(x, st, st', task); }
    assert TablesOk(x, st') by { JoinTables(x, st, st', task, r); }
    assert PendingOk(x, st') by { assert Finished(x, st', task); }
  }

  lemma JoinLinkmap(x: Setting, st: State, st': State, task: nat, r: Receipt)
    requires Fetched(x.job, x.batch) && LinkmapOk(x, st) && RunningOk(x, st) && task in st.running
    requires forall i, j :: 0 <= i < j < |x.batch| ==> x.batch[i].cid != x.batch[j].cid
    requires x.made(task) == Some(r) && st'.linkmap == st.linkmap[x.batch[task].cid := OutputAsArg(r)]
    requires st'.running == st.running - {task}
    ensures LinkmapOk(x, st')
  {
    assert InBatch(x, x.batch[task].cid);
    forall k | Finished(x, st', k)
      ensures x.batch[k].cid in st'.linkmap && x.made(k).Some? && st'.linkmap[x.batch[k].cid] == OutputAsArg(x.made(k).value)
    {
      if k != task { assert Finished(x, st, k) && x.batch[k].cid != x.batch[task].cid; }
    }
    forall t | t in st'.running && t < |x.batch| && x.batch[t].cid in st'.linkmap
      ensures x.batch[t].cid in x.st.linkmap && st'.linkmap[x.batch[t].cid] == x.st.linkmap[x.batch[t].cid]
    {
      assert t in st.running && x.batch[t].cid != x.batch[task].cid;
    }
  }

  lemma JoinArrived(x: Setting, st: State, st': State, task: nat)
    requires ArrivedOk(x, st) && task in st.running && task < |x.batch| && st.running[task].vertex == x.batch[task]
    requires Ready(st.running[task]) && st'.running == st.running - {task}
    requires forall c :: c in st.linkmap ==> c in st'.linkmap
    ensures ArrivedOk(x, st')
  {
    forall k, p | Finished(x, st', k) && LinkIn(x.batch[k].args, p).Some? && Arrives(x, LinkIn(x.batch[k].args, p).value)
      ensures LinkIn(x.batch[k].args, p).value in st'.linkmap
    {
      if k == task {
        ReadyAt(st.running[task], p);
      } else {
        assert Finished(x, st, k);
      }
    }
  }

  /** A task that is ready has every one of its lookups answered. */
  lemma ReadyAt(r: Running, p: Path)
    requires Ready(r) && LinkIn(r.vertex.args, p).Some?
    ensures Answered(r.lookups, p)
  {
    var k := p[0];
    assert p == [k] + p[1..];
    assert InputAnswered(r.vertex.args[k], [k], r.lookups);
    if Substituted(r.vertex.args[k]) {
      AllAnsweredAt(r.vertex.args[k].ipld, [k], r.lookups, p[1..]);
    } else {
      assert p == [k];
    }
  }

  /** Joining adds nothing to the tables yet: the new receipt is pending. */
  lemma JoinAdded(x: Setting, st: State, st': State, task: nat, q: Receipt)
    requires Fetched(x.job, x.batch) && task in st.running && task < |x.batch| && x.batch[task].op == WASM_OP
    requires forall k :: 0 <= k < |x.batch| && x.made(k).Some? ==> x.made(k).value.instruction == x.batch[k].cid
    requires forall i, j :: 0 <= i < j < |x.batch| ==> x.batch[i].cid != x.batch[j].cid
    requires forall c :: LooksUp(x, c) ==> !InBatch(x, c)
    requires st.pending.None? && x.made(task).Some? && st'.pending == x.made(task)
    requires st'.linkmap == st.linkmap[x.batch[task].cid := OutputAsArg(x.made(task).value)]
    requires st'.running == st.running - {task}
    ensures Added(x, st', q) <==> Added(x, st, q)
  {
    assert InBatch(x, x.batch[task].cid);
    assert forall c :: Arrives(x, c) ==> (c in st'.linkmap <==> c in st.linkmap);
    assert forall k :: Finished(x, st', k) <==> Finished(x, st, k) || k == task;
    assert forall k :: Finished(x, st, k) ==> x.made(k) != x.made(task) by {
      forall k | Finished(x, st, k) ensures x.made(k) != x.made(task) {
        assert x.batch[k].cid != x.batch[task].cid;
      }
    }
  }

  lemma JoinTables(x: Setting, st: State, st': State, task: nat, r: Receipt)
    requires Fetched(x.job, x.batch) && TablesOk(x, st) && task in st.running && st.pending.None?
    requires task < |x.batch| && x.batch[task].op == WASM_OP
    requires forall k :: 0 <= k < |x.batch| && x.made(k).Some? ==> x.made(k).value.instruction == x.batch[k].cid
    requires x.made(task) == Some(r) && st'.pending == Some(r) && st'.tables == st.tables
    requires st'.linkmap == st.linkmap[x.batch[task].cid := OutputAsArg(r)] && st'.running == st.running - {task}
    requires forall c :: LooksUp(x, c) ==> !InBatch(x, c)
    requires forall i, j :: 0 <= i < j < |x.batch| ==> x.batch[i].cid != x.batch[j].cid
    ensures TablesOk(x, st')
  {
    forall q ensures AddedIn(x, st')(q) <==> AddedIn(x, st)(q) { JoinAdded(x, st, st', task, q); }
    AccountSame(x.st.tables, st.tables, x.job.workflow, x.heard, AddedIn(x, st), AddedIn(x, st'));
  }

  lemma CommitAdded(x: Setting, st: State, st': State, q: Receipt)
    requires Fetched(x.job, x.batch) && PendingOk(x, st) && st.pending.Some? && st'.pending.None?
    requires st'.linkmap == st.linkmap && st'.running == st.running
    ensures Added(x, st', q) <==> Added(x, st, q) || q == st.pending.value
  {
    assert forall k :: Finished(x, st', k) <==> Finished(x, st, k);
  }

  lemma CommitStep(u: Universe, x: Setting, st: State)
    requires Valid(u, x) && Between(u, x, st) && CommitPending(x.job, st, true).Some?
    ensures Between(u, x, CommitPending(x.job, st, true).value)
  {
    var st' := CommitPending(x.job, st, true).value;
    assert Grows(x.st.tables, st.tables);
    assert st' == st.(tables := Committed(st.tables, x.job.workflow, st.pending.value), pending := None);
    CommitTables(u, x, st, st');
    CommitHashed(u, x.job, st, true);
    CommitKeeps(x, st, st');
  }

  lemma CommitTables(u: Universe, x: Setting, st: State, st': State)
    requires Fetched(x.job, x.batch) && HashedState(u, x.job, st) && TablesOk(x, st) && PendingOk(x, st)
    requires st.pending.Some? && x.job.workflow in st.tables.workflows
    requires st' == st.(tables := Committed(st.tables, x.job.workflow, st.pending.value), pending := None)
    ensures TablesOk(x, st')
  {
    var r := st.pending.value;
    forall q ensures AddedIn(x, st')(q) <==> AddedIn(x, st)(q) || q == r { CommitAdded(x, st, st', q); }
    CommitAdds(u, x.job, x.st.tables, st.tables, x.heard, AddedIn(x, st), AddedIn(x, st'), r);
  }

  lemma CommitKeeps(x: Setting, st: State, st': State)
    requires Fetched(x.job, x.batch) && LinkmapOk(x, st) && ArrivedOk(x, st) && RunningOk(x, st)
    requires st'.linkmap == st.linkmap && st'.running == st.running
    ensures LinkmapOk(x, st') && ArrivedOk(x, st') && RunningOk(x, st')
  {
    assert forall k :: Finished(x, st', k) <==> Finished(x, st, k);
  }

  // ---------------------------------------------------------------------------
  // Whole batches
  // ---------------------------------------------------------------------------

  /** Every event is a calm one where it happens. */
  ghost predicate CalmRun(x: Setting, evs: seq<Event>) {
    evs == [] ||
    (var front := evs[..|evs| - 1];
     CalmRun(x, front) && Run(x.job, x.st, front).Some? && Calm(x, Run(x.job, x.st, front).value, evs[|evs| - 1]))
  }

  lemma StaysFailed(job: Job, st: State, ev: Event)
    requires st.status == Failed && Next(job, st, ev).Some?
    ensures Next(job, st, ev).value.status == Failed
  {
  }

  lemma {:induction false} CalmRunBetween(u: Universe, x: Setting, evs: seq<Event>)
    requires Valid(u, x) && AnswersOk(x) && Determined(x) && CalmRun(x, evs)
    requires Run(x.job, x.st, evs).Some? && Run(x.job, x.st, evs).value.status == Active
    ensures Between(u, x, Run(x.job, x.st, evs).value)
  {
    if evs == [] {
      BetweenStart(u, x);
    } else {
      var front, last := evs[..|evs| - 1], evs[|evs| - 1];
      var mid := Run(x.job, x.st, front).value;
      if mid.status == Failed { StaysFailed(x.job, mid, last); }
      CalmRunBetween(u, x, front);
      match last
      case Look(t, p, o) => LookStep(u, x, mid, t, p, o);
      case Join(t) => JoinStep(u, x, mid, t);
      case Commit(ok) => CommitStep(u, x, mid);
      case Gossip(r) => GossipStep(u, x, mid, r);
      case _ =>
    }
  }

  lemma GossipStep(u: Universe, x: Setting, st: State, r: Receipt)
    requires Valid(u, x) && Between(u, x, st) && r in x.heard
    ensures Between(u, x, st.(tables := Stored(st.tables, r)))
  {
    var st' := st.(tables := Stored(st.tables, r));
    assert HashedState(u, x.job, st') by { HearHashed(u, x.job, st, r, true); }
    assert LinkmapOk(x, st') && ArrivedOk(x, st') && RunningOk(x, st') by { CommitKeeps(x, st, st'); }
    assert TablesOk(x, st') && PendingOk(x, st') by { GossipTables(x, st, r); }
  }

  lemma GossipTables(x: Setting, st: State, r: Receipt)
    requires Fetched(x.job, x.batch) && TablesOk(x, st) && PendingOk(x, st) && r in x.heard
    ensures var st' := st.(tables := Stored(st.tables, r)); TablesOk(x, st') && PendingOk(x, st')
  {
    var st' := st.(tables := Stored(st.tables, r));
    forall q ensures AddedIn(x, st')(q) <==> AddedIn(x, st)(q) { GossipAdds(x, st, r, q); }
    GossipAdds(x, st, r, r);
    HearAccount(x.st.tables, st.tables, x.job.workflow, x.heard, AddedIn(x, st), r);
    AccountSame(x.st.tables, st'.tables, x.job.workflow, x.heard, AddedIn(x, st), AddedIn(x, st'));
  }

  lemma HearAccount(t0: Tables, t: Tables, workflow: Cid, heard: set<Receipt>, added: Receipt -> bool, r: Receipt)
    requires Account(t0, t, workflow, heard, added) && r in heard
    ensures Account(t0, Stored(t, r), workflow, heard, added)
  {
  }

  lemma GossipAdds(x: Setting, st: State, r: Receipt, q: Receipt)
    requires Fetched(x.job, x.batch)
    ensures Added(x, st.(tables := Stored(st.tables, r)), q) <==> Added(x, st, q)
    ensures PendingOk(x, st) ==> PendingOk(x, st.(tables := Stored(st.tables, r)))
  {
    var st' := st.(tables := Stored(st.tables, r));
    assert forall k :: Finished(x, st', k) <==> Finished(x, st, k);
  }

  /** What is heard is stored. */
  lemma {:induction false} HeardStays(job: Job, st: State, evs: seq<Event>, r: Receipt)
    requires Run(job, st, evs).Some? && Gossip(r) in evs
    ensures r.cid in Run(job, st, evs).value.tables.receipts
  {
    var front, last := evs[..|evs| - 1], evs[|evs| - 1];
    var mid := Run(job, st, front).value;
    if last != Gossip(r) {
      HeardStays(job, st, front, r);
      TablesGrow(job, mid, last);
    }
  }

  /** All tasks of the batch were joined and committed. */
  predicate BatchDone(st: State) {
    st.status == Active && st.running == map[] && st.pending.None?
  }

  /** The end of a batch is determined by its beginning. */
  lemma DoneLinkmap(u: Universe, x: Setting, a: State, b: State)
    requires Valid(u, x) && Between(u, x, a) && Between(u, x, b) && BatchDone(a) && BatchDone(b)
    ensures a.linkmap == b.linkmap
  {
    forall c ensures c in a.linkmap <==> c in b.linkmap
             ensures c in a.linkmap && c in b.linkmap ==> a.linkmap[c] == b.linkmap[c]
    {
      if InBatch(x, c) {
        var k :| 0 <= k < |x.batch| && x.batch[k].op == WASM_OP && x.batch[k].cid == c;
        assert Finished(x, a, k) && Finished(x, b, k);
      } else if Arrives(x, c) {
        ArrivedAtEnd(x, a, c);
        ArrivedAtEnd(x, b, c);
      }
    }
  }

  lemma ArrivedAtEnd(x: Setting, st: State, c: Cid)
    requires ArrivedOk(x, st) && st.running == map[] && Arrives(x, c)
    ensures c in st.linkmap
  {
    var k, p :| 0 <= k < |x.batch| && x.batch[k].op == WASM_OP && LinkIn(x.batch[k].args, p) == Some(c);
    assert Finished(x, st, k);
  }

  lemma DoneTables(u: Universe, x: Setting, a: State, b: State)
    requires Valid(u, x) && Between(u, x, a) && Between(u, x, b) && BatchDone(a) && BatchDone(b)
    requires a.linkmap == b.linkmap
    requires forall r :: r in x.heard ==> r.cid in a.tables.receipts && r.cid in b.tables.receipts
    ensures a.tables == b.tables
  {
    assert forall k :: Finished(x, a, k) <==> Finished(x, b, k);
    forall q ensures AddedIn(x, a)(q) <==> AddedIn(x, b)(q) { }
    AccountsAgree(u, x.st.tables, a.tables, b.tables, x.job.workflow, x.heard, AddedIn(x, a), AddedIn(x, b));
  }

  lemma AccountsAgree(
    u: Universe, t0: Tables, t: Tables, t': Tables, workflow: Cid, heard: set<Receipt>,
    added: Receipt -> bool, added': Receipt -> bool)
    requires HashedTables(u, t) && HashedTables(u, t')
    requires Account(t0, t, workflow, heard, added) && Account(t0, t', workflow, heard, added')
    requires forall q :: added(q) <==> added'(q)
    requires forall r :: r in heard ==> r.cid in t.receipts && r.cid in t'.receipts
    ensures t == t'
  {
    forall k ensures k in t.receipts <==> k in t'.receipts
             ensures k in t.receipts && k in t'.receipts ==> t.receipts[k] == t'.receipts[k]
    {
      if k in t.receipts && k !in t0.receipts { assert added'(t.receipts[k]) || t.receipts[k] in heard; }
      if k in t'.receipts && k !in t0.receipts { assert added(t'.receipts[k]) || t'.receipts[k] in heard; }
    }
    assert t.receipts == t'.receipts;
    AccountSame(t0, t, workflow, heard, added, added');
    forall e | e in t.joins + t'.joins ensures e in t.joins && e in t'.joins { assert e == (e.0, e.1); }
    assert t.joins == t'.joins;
  }

  /**
   Interleaving independence. Two runs of the same batch from the same state, with
   the same network and the same gossip, in which every task succeeds, end with the same
   linkmap and the same tables, however their lookups, completions and commits and the
   gossip were interleaved.
   */
  lemma Independence(
    u: Universe, job: Job, st: State, net: Net, heard: set<Receipt>, evs: seq<Event>, evs': seq<Event>)
    requires 0 < st.started <= |job.run|
    requires forall r :: r in heard ==> Gossip(r) in evs && Gossip(r) in evs'
    requires var x := Chosen(job, st, net, heard); Setup(u, x) && CalmRun(x, evs) && CalmRun(x, evs')
    requires Run(job, st, evs).Some? && BatchDone(Run(job, st, evs).value)
    requires Run(job, st, evs').Some? && BatchDone(Run(job, st, evs').value)
    ensures Run(job, st, evs).value.linkmap == Run(job, st, evs').value.linkmap
    ensures Run(job, st, evs).value.tables == Run(job, st, evs').value.tables
  {
    var x := Chosen(job, st, net, heard);
    ChosenOk(u, job, st, net, heard);
    CalmRunBetween(u, x, evs);
    CalmRunBetween(u, x, evs');
    forall r | r in heard
      ensures r.cid in Run(job, st, evs).value.tables.receipts && r.cid in Run(job, st, evs').value.tables.receipts
    {
      HeardStays(job, st, evs, r);
      HeardStays(job, st, evs', r);
    }
    DoneLinkmap(u, x, Run(job, st, evs).value, Run(job, st, evs').value);
    DoneTables(u, x, Run(job, st, evs).value, Run(job, st, evs').value);
  }

  ghost function TheAnswer(job: Job, st: State, net: Net, c: Cid): Option<InstructionResult<Arg>> {
    if c in st.linkmap then Some(st.linkmap[c])
    else if RCid(c) in job.resources then Some(ResOk(ArgIpld(Bytes(job.resources[RCid(c)]))))
    else if exists k :: IsRow(st.tables, k, c) then
      var k :| IsRow(st.tables, k, c);
      Some(OutputAsArg(st.tables.receipts[k]))
    else match net(c) case Some(r) => Some(OutputAsArg(r)) case None => None
  }

  /** The setting of the batch that was just started, with the answers and receipts it determines. */
  ghost function Chosen(job: Job, st: State, net: Net, heard: set<Receipt>): Setting
    requires 0 < st.started <= |job.run|
  {
    var batch := job.run[st.started - 1];
    var ans := (c: Cid) => TheAnswer(job, st, net, c);
    Setting(job, st, net, heard, batch, ans, (k: int) =>
      if 0 <= k < |batch| && RUrl(batch[k].url) in job.resources then ReceiptOf(job, ans, batch[k]) else None)
  }

  lemma ChosenOk(u: Universe, job: Job, st: State, net: Net, heard: set<Receipt>)
    requires 0 < st.started <= |job.run| && Setup(u, Chosen(job, st, net, heard))
    ensures var x := Chosen(job, st, net, heard); Valid(u, x) && AnswersOk(x) && Determined(x)
  {
    var x := Chosen(job, st, net, heard);
    forall c ensures IsAnswer(x, c, x.ans(c)) { AnswerChosen(job, st, net, heard, c); }
    assert Determined(x) by { ReceiptsChosen(job, st, net, heard); }
    forall k | 0 <= k < |x.batch| && x.made(k).Some? ensures x.made(k).value.instruction == x.batch[k].cid {
      assert x.made(k) == ReceiptOf(job, x.ans, x.batch[k]);
    }
  }

  lemma ReceiptsChosen(job: Job, st: State, net: Net, heard: set<Receipt>)
    requires 0 < st.started <= |job.run| && Fetched(job, job.run[st.started - 1])
    ensures Determined(Chosen(job, st, net, heard))
  {
  }

  lemma AnswerChosen(job: Job, st: State, net: Net, heard: set<Receipt>, c: Cid)
    requires 0 < st.started <= |job.run| && OneOutputEach(st.tables)
    ensures IsAnswer(Chosen(job, st, net, heard), c, TheAnswer(job, st, net, c))
  {
    if HasInstruction(st.tables, c) {
      var k :| k in st.tables.receipts && st.tables.receipts[k].instruction == c;
      assert IsRow(st.tables, k, c);
    }
  }
}
