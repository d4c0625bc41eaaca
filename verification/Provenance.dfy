/**
 Where the values come from, over every run of a worker: every receipt it holds was there,
 was heard, or is that of a call it made; and a task that awaits an instruction is called with
 the output of such a receipt for it.
 */
module Provenance {
  import opened Wrappers
  import opened IpldModel
  import opened Wit
  import opened Inputs
  import opened Workflows
  import opened Execution
  import opened Database
  import opened Scheduler
  import opened Worker
  import opened WorkerProgress

  /** The event brings the receipt from outside. */
  predicate Brings(ev: Event, r: Receipt) {
    match ev
    case Gossip(x) => x == r
    case Straggle(x, _) => x == r
    case Look(_, _, o) => o.found == Some(r)
    case _ => false
  }

  /**
   The receipt is that of the output `o` of the task: it names the task's instruction and
   invocation, holds the output and the function that was called, and is named by their hash.
   */
  ghost predicate Certifies(w: World, v: Vertex, o: Ipld, r: Receipt) {
    && r.instruction == v.cid && r.ran == v.invocation && r.out == ResOk(o)
    && r.meta == Map([Entry("op", String(v.fun))])
    && r.cid == w.receiptCid(v.invocation, o, r.meta)
  }

  /** The call of a task that gave the IPLD output. */
  ghost predicate Gave(w: World, r: Running, o: Ipld) {
    ExecuteTask(w, r).Some? && OutputToIpld(w.codec, ExecuteTask(w, r).value) == Ok(o)
  }

  /** The event at `j` joins a task of the run, and this is the receipt of what it returned. */
  ghost predicate Makes(job: Job, st: State, evs: seq<Event>, j: int, r: Receipt) {
    && 0 <= j < |evs| && evs[j].Join? && Run(job, st, evs[..j]).Some?
    && var mid := Run(job, st, evs[..j]).value;
       && evs[j].task in mid.running
       && exists o :: Gave(job.world, mid.running[evs[j].task], o)
            && Certifies(job.world, mid.running[evs[j].task].vertex, o, r)
  }

  ghost predicate StoredIn(t: Tables, r: Receipt) {
    exists k :: k in t.receipts && t.receipts[k] == r
  }

  /** The run has the receipt from its start, from outside, or from a call of its own. */
  ghost predicate Has(job: Job, st: State, evs: seq<Event>, r: Receipt) {
    || StoredIn(st.tables, r)
    || (exists j :: 0 <= j < |evs| && Brings(evs[j], r))
    || (exists j :: Makes(job, st, evs, j, r))
  }

  /** The answer is the output of the receipt, with its branch. */
  predicate Conveys(r: Receipt, x: InstructionResult<Arg>) {
    && x.inner == ArgIpld(r.out.inner)
    && (x.ResOk? <==> r.out.ResOk?) && (x.ResError? <==> r.out.ResError?)
  }

  /** The answer is the output of a receipt for the instruction that the run has. */
  ghost predicate Reported(job: Job, st: State, evs: seq<Event>, c: Cid, x: InstructionResult<Arg>) {
    exists r :: Has(job, st, evs, r) && r.instruction == c && Conveys(r, x)
  }

  ghost predicate IsResource(job: Job, c: Cid, x: InstructionResult<Arg>) {
    RCid(c) in job.resources && x == ResOk(ArgIpld(Bytes(job.resources[RCid(c)])))
  }

  ghost predicate Sourced(job: Job, st: State, evs: seq<Event>, c: Cid, x: InstructionResult<Arg>) {
    IsResource(job, c, x) || Reported(job, st, evs, c, x)
  }

  ghost predicate LookupsFrom(job: Job, st: State, evs: seq<Event>, r: Running) {
    forall p :: p in r.lookups && LinkIn(r.vertex.args, p).Some? && r.lookups[p].Done? && r.lookups[p].answer.Some? ==>
      Sourced(job, st, evs, LinkIn(r.vertex.args, p).value, r.lookups[p].answer.value)
  }

  /** All that the state `mid` holds after the events comes from a receipt the run has, or is a resource. */
  ghost predicate Accounted(job: Job, st: State, evs: seq<Event>, mid: State) {
    && (forall r :: StoredIn(mid.tables, r) ==> Has(job, st, evs, r))
    && (mid.pending.Some? ==> Has(job, st, evs, mid.pending.value))
    && (forall c :: c in mid.linkmap ==> Reported(job, st, evs, c, mid.linkmap[c]))
    && (forall t :: t in mid.running ==> LookupsFrom(job, st, evs, mid.running[t]))
  }

  // ---------------------------------------------------------------------------
  // Receipts stay
  // ---------------------------------------------------------------------------

  lemma HasMore(job: Job, st: State, evs: seq<Event>, ev: Event, r: Receipt)
    requires Has(job, st, evs, r)
    ensures Has(job, st, evs + [ev], r)
  {
    var more := evs + [ev];
    if j :| 0 <= j < |evs| && Brings(evs[j], r) { assert Brings(more[j], r); }
    if j :| Makes(job, st, evs, j, r) {
      assert more[..j] == evs[..j] && more[j] == evs[j];
      assert Makes(job, st, more, j, r);
    }
  }

  lemma ReportedMore(job: Job, st: State, evs: seq<Event>, ev: Event, c: Cid, x: InstructionResult<Arg>)
    requires Reported(job, st, evs, c, x)
    ensures Reported(job, st, evs + [ev], c, x)
  {
    var r :| Has(job, st, evs, r) && r.instruction == c && Conveys(r, x);
    HasMore(job, st, evs, ev, r);
  }

  lemma LookupsMore(job: Job, st: State, evs: seq<Event>, ev: Event, r: Running)
    requires LookupsFrom(job, st, evs, r)
    ensures LookupsFrom(job, st, evs + [ev], r)
  {
    forall p | p in r.lookups && LinkIn(r.vertex.args, p).Some? && r.lookups[p].Done? && r.lookups[p].answer.Some?
      ensures Sourced(job, st, evs + [ev], LinkIn(r.vertex.args, p).value, r.lookups[p].answer.value)
    {
      var c, x := LinkIn(r.vertex.args, p).value, r.lookups[p].answer.value;
      if Reported(job, st, evs, c, x) { ReportedMore(job, st, evs, ev, c, x); }
    }
  }

  /** What was accounted for before an event is accounted for after it. */
  lemma AccountedMore(job: Job, st: State, evs: seq<Event>, ev: Event, mid: State)
    requires Accounted(job, st, evs, mid)
    ensures Accounted(job, st, evs + [ev], mid)
  {
    forall r | StoredIn(mid.tables, r) ensures Has(job, st, evs + [ev], r) { HasMore(job, st, evs, ev, r); }
    if mid.pending.Some? { HasMore(job, st, evs, ev, mid.pending.value); }
    forall c | c in mid.linkmap ensures Reported(job, st, evs + [ev], c, mid.linkmap[c]) {
      ReportedMore(job, st, evs, ev, c, mid.linkmap[c]);
    }
    forall t | t in mid.running ensures LookupsFrom(job, st, evs + [ev], mid.running[t]) {
      LookupsMore(job, st, evs, ev, mid.running[t]);
    }
  }

  lemma BroughtIsHad(job: Job, st: State, evs: seq<Event>, ev: Event, r: Receipt)
    requires Brings(ev, r)
    ensures Has(job, st, evs + [ev], r)
    ensures Reported(job, st, evs + [ev], r.instruction, OutputAsArg(r))
  {
    assert Brings((evs + [ev])[|evs|], r);
    assert Conveys(r, OutputAsArg(r));
  }

  lemma StoredMore(t: Tables, job: Job, r: Receipt, ok: bool, x: Receipt)
    ensures StoredIn(Stored(t, r), x) || StoredIn(CommitIf(job, t, r, ok), x) ==> StoredIn(t, x) || x == r
  {
  }

  // ---------------------------------------------------------------------------
  // Every event accounts for what it adds
  // ---------------------------------------------------------------------------

  lemma StageAccounted(job: Job, st: State, evs: seq<Event>, mid: State, c: Cid, s: Stage, o: Outside)
    requires Accounted(job, st, evs, mid) && ResolveCid(job, mid, c, s, o).Some?
    requires o.found.Some? ==> Reported(job, st, evs, o.found.value.instruction, OutputAsArg(o.found.value))
    ensures var s' := ResolveCid(job, mid, c, s, o).value.stage;
            s'.Done? && s'.answer.Some? ==> Sourced(job, st, evs, c, s'.answer.value)
  {
    if s.AtDb? && o.conn && o.row.Some? {
      var r := mid.tables.receipts[o.row.value];
      assert StoredIn(mid.tables, r) && Conveys(r, OutputAsArg(r));
    }
  }

  /** A receipt the network brought is stored and linked, and nothing else is. */
  lemma BroughtAccounted(
    job: Job, st: State, evs: seq<Event>, mid: State, r: Receipt, ok: bool, linkmap: map<Cid, InstructionResult<Arg>>,
    t: Tables)
    requires Accounted(job, st, evs, mid) && Has(job, st, evs, r)
    requires Reported(job, st, evs, r.instruction, OutputAsArg(r))
    requires linkmap == InsertNew(mid.linkmap, r.instruction, OutputAsArg(r)) && t == CommitIf(job, mid.tables, r, ok)
    ensures Accounted(job, st, evs, mid.(linkmap := linkmap, tables := t))
  {
    forall x | StoredIn(t, x) ensures Has(job, st, evs, x) { StoredMore(mid.tables, job, r, ok, x); }
  }

  lemma RunningAccounted(job: Job, st: State, evs: seq<Event>, mid: State, task: nat, r: Running)
    requires Accounted(job, st, evs, mid) && LookupsFrom(job, st, evs, r)
    ensures Accounted(job, st, evs, mid.(running := mid.running[task := r]))
  {
  }

  lemma StageRecorded(job: Job, st: State, evs: seq<Event>, r: Running, at: Path, s: Stage)
    requires LookupsFrom(job, st, evs, r) && LinkIn(r.vertex.args, at).Some?
    requires s.Done? && s.answer.Some? ==> Sourced(job, st, evs, LinkIn(r.vertex.args, at).value, s.answer.value)
    ensures LookupsFrom(job, st, evs, r.(lookups := r.lookups[at := s]))
  {
  }

  lemma LookAccounted(job: Job, st: State, evs: seq<Event>, mid: State, task: nat, at: Path, o: Outside)
    requires Accounted(job, st, evs, mid) && LookUp(job, mid, task, at, o).Some?
    ensures Accounted(job, st, evs + [Look(task, at, o)], LookUp(job, mid, task, at, o).value)
  {
    var ev := Look(task, at, o);
    AccountedMore(job, st, evs, ev, mid);
    if o.found.Some? { BroughtIsHad(job, st, evs, ev, o.found.value); }
    LookedAccounted(job, st, evs + [ev], mid, task, at, o);
  }

  lemma LookedAccounted(job: Job, st: State, evs: seq<Event>, mid: State, task: nat, at: Path, o: Outside)
    requires Accounted(job, st, evs, mid) && LookUp(job, mid, task, at, o).Some?
    requires o.found.Some? ==>
               && Has(job, st, evs, o.found.value)
               && Reported(job, st, evs, o.found.value.instruction, OutputAsArg(o.found.value))
    ensures Accounted(job, st, evs, LookUp(job, mid, task, at, o).value)
  {
    var r, mid' := mid.running[task], LookUp(job, mid, task, at, o).value;
    var c, s := LinkIn(r.vertex.args, at).value, if at in r.lookups then r.lookups[at] else AtLinkmap;
    StageAccounted(job, st, evs, mid, c, s, o);
    StageRecorded(job, st, evs, r, at, ResolveCid(job, mid, c, s, o).value.stage);
    LookEffect(job, mid, task, at, o);
    var stored := mid.(linkmap := mid'.linkmap, tables := mid'.tables);
    if stored != mid {
      BroughtAccounted(job, st, evs, mid, o.found.value, o.commits, mid'.linkmap, mid'.tables);
    }
    RunningAccounted(job, st, evs, stored, task, mid'.running[task]);
  }

  lemma JoinAccounted(job: Job, st: State, evs: seq<Event>, mid: State, task: nat)
    requires Run(job, st, evs) == Some(mid) && Accounted(job, st, evs, mid) && JoinNext(job, mid, task).Some?
    ensures Accounted(job, st, evs + [Join(task)], JoinNext(job, mid, task).value)
  {
    var ev, r, mid' := Join(task), mid.running[task], JoinNext(job, mid, task).value;
    var more := evs + [ev];
    AccountedMore(job, st, evs, ev, mid);
    var out := ExecuteTask(job.world, r).value;
    if OutputToIpld(job.world.codec, out).Ok? {
      var o := OutputToIpld(job.world.codec, out).value;
      var receipt := MakeReceipt(job.world, r.vertex, o);
      assert Gave(job.world, r, o) && Certifies(job.world, r.vertex, o, receipt);
      assert more[..|evs|] == evs && more[|evs|] == ev;
      assert Makes(job, st, more, |evs|, receipt);
      assert Has(job, st, more, receipt) && Conveys(receipt, OutputAsArg(receipt));
      assert Reported(job, st, more, r.vertex.cid, OutputAsArg(receipt));
    }
  }

  lemma HearAccounted(job: Job, st: State, evs: seq<Event>, mid: State, ev: Event)
    requires Accounted(job, st, evs, mid) && (ev.Gossip? || ev.Straggle?) && Next(job, mid, ev).Some?
    ensures Accounted(job, st, evs + [ev], Next(job, mid, ev).value)
  {
    AccountedMore(job, st, evs, ev, mid);
    BroughtIsHad(job, st, evs, ev, ev.receipt);
    forall x | StoredIn(Next(job, mid, ev).value.tables, x) ensures Has(job, st, evs + [ev], x) {
      StoredMore(mid.tables, job, ev.receipt, if ev.Straggle? then ev.ok else true, x);
    }
  }

  lemma CommitAccounted(job: Job, st: State, evs: seq<Event>, mid: State, ok: bool)
    requires Accounted(job, st, evs, mid) && CommitPending(job, mid, ok).Some?
    ensures Accounted(job, st, evs + [Commit(ok)], CommitPending(job, mid, ok).value)
  {
    AccountedMore(job, st, evs, Commit(ok), mid);
    forall x | StoredIn(CommitPending(job, mid, ok).value.tables, x) ensures Has(job, st, evs + [Commit(ok)], x) {
      StoredMore(mid.tables, job, mid.pending.value, ok, x);
    }
  }

  /** Starting, closing and giving up a batch, and aborting, add no receipt and no answer. */
  lemma QuietAccounted(job: Job, st: State, evs: seq<Event>, mid: State, ev: Event)
    requires ev.StartBatch? || ev.Lose? || ev.EndBatch? || ev.Abort?
    requires Accounted(job, st, evs, mid) && Next(job, mid, ev).Some?
    ensures Accounted(job, st, evs + [ev], Next(job, mid, ev).value)
  {
    AccountedMore(job, st, evs, ev, mid);
    QuietEvent(job, mid, ev);
  }

  lemma StepAccounted(job: Job, st: State, evs: seq<Event>, mid: State, ev: Event)
    requires Run(job, st, evs) == Some(mid) && Accounted(job, st, evs, mid) && Next(job, mid, ev).Some?
    ensures Accounted(job, st, evs + [ev], Next(job, mid, ev).value)
  {
    match ev
    case Look(task, at, o) => LookAccounted(job, st, evs, mid, task, at, o);
    case Join(task) => JoinAccounted(job, st, evs, mid, task);
    case Commit(ok) => CommitAccounted(job, st, evs, mid, ok);
    case Gossip(_) => HearAccounted(job, st, evs, mid, ev);
    case Straggle(_, _) => HearAccounted(job, st, evs, mid, ev);
    case _ => QuietAccounted(job, st, evs, mid, ev);
  }

  /** A run starts with nothing under way, and its linkmap holds outputs of stored receipts. */
  ghost predicate Grounded(st: State) {
    && st.running == map[] && st.pending.None?
    && forall c :: c in st.linkmap ==> exists r :: StoredIn(st.tables, r) && r.instruction == c && Conveys(r, st.linkmap[c])
  }

  lemma CoherentIsGrounded(st: State)
    requires CoherentLinkmap(st) && st.running == map[] && st.pending.None?
    ensures Grounded(st)
  {
    forall c | c in st.linkmap
      ensures exists r :: StoredIn(st.tables, r) && r.instruction == c && Conveys(r, st.linkmap[c])
    {
      assert Backed(st, c, st.linkmap[c]) && StoredOutput(st.tables, c, st.linkmap[c]);
      var k :| k in st.tables.receipts && st.tables.receipts[k].instruction == c
               && OutputAsArg(st.tables.receipts[k]) == st.linkmap[c];
      assert StoredIn(st.tables, st.tables.receipts[k]);
    }
  }

  /**
   Over every run, every receipt stored or about to be committed was there at the start, was
   brought from outside, or certifies the output of a call the run made; and every linkmap entry
   and every answer of a lookup is the output of such a receipt for that instruction, or a resource.
   */
  lemma {:induction false} AllAccounted(job: Job, st: State, evs: seq<Event>)
    requires Grounded(st) && Run(job, st, evs).Some?
    ensures Accounted(job, st, evs, Run(job, st, evs).value)
  {
    if evs == [] {
      forall c | c in st.linkmap ensures Reported(job, st, evs, c, st.linkmap[c]) {
        var r :| StoredIn(st.tables, r) && r.instruction == c && Conveys(r, st.linkmap[c]);
        assert Has(job, st, evs, r);
      }
    } else {
      var front, last := evs[..|evs| - 1], evs[|evs| - 1];
      AllAccounted(job, st, front);
      StepAccounted(job, st, front, Run(job, st, front).value, last);
      assert evs == front + [last];
    }
  }

  // ---------------------------------------------------------------------------
  // What a task is called with
  // ---------------------------------------------------------------------------

  /** The parameters the task is called with, one for each argument that is passed. */
  ghost predicate CalledWith(w: World, r: Running, types: seq<WitType>, vs: seq<Val>) {
    && w.params(r.wasm, r.vertex.fun) == Some(types) && |vs| == Passed(types, r.vertex.args)
    && LowerArgs(w.codec, types, Resolved(w.codec, r)) == Ok(vs)
    && ExecuteTask(w, r) == w.call(r.wasm, r.vertex.fun, vs)
  }

  /** The value is a resource the run fetched under the CID, or the output of a receipt for it that the run has. */
  ghost predicate Comes(job: Job, st: State, evs: seq<Event>, c: Cid, i: Ipld) {
    || (RCid(c) in job.resources && i == Bytes(job.resources[RCid(c)]))
    || exists r :: Has(job, st, evs, r) && r.instruction == c && r.out.inner == i
  }

  /** The argument lowers to the value, and the value is what the argument is at the type. */
  ghost predicate Passes(c: Codec, t: WitType, input: Input, v: Val) {
    LowerInput(c, t, input) == Ok(v) && Given(c, t, input, v)
  }

  /** The parameter of type `t` gets the value that comes for the instruction. */
  ghost predicate GetsAwaited(job: Job, st: State, evs: seq<Event>, c: Cid, t: WitType, v: Val) {
    exists i :: Comes(job, st, evs, c, i) && Passes(job.world.codec, t, InIpld(i), v)
  }

  /**
   `j` is `i` with each link left in place or replaced by what comes for it, as a whole result
   where it stands under the pointer branch.
   */
  ghost predicate Filled(job: Job, st: State, evs: seq<Event>, i: Ipld, j: Ipld, wrap: bool)
    decreases i
  {
    match i
    case Link(c) => j == i || exists x :: Sourced(job, st, evs, c, x) && j == Shown(x, wrap)
    case List(items) =>
      j.List? && |j.items| == |items| && forall k :: 0 <= k < |items| ==> Filled(job, st, evs, items[k], j.items[k], false)
    case Map(es) =>
      && j.Map? && |j.entries| == |es|
      && forall k :: 0 <= k < |es| ==>
           && j.entries[k].key == es[k].key
           && Filled(job, st, evs, es[k].value, j.entries[k].value, es[k].key == PTR_BRANCH)
    case _ => j == i
  }

  /** An answer in the place of a link. */
  ghost function Shown(x: InstructionResult<Arg>, wrap: bool): Ipld {
    if x.inner.ArgValue? then Null
    else if !wrap then x.inner.ipld
    else Tagged(if x.ResOk? then "ok" else if x.ResError? then "error" else "just", x.inner.ipld)
  }

  /**
   What the parameter for an argument gets: a literal result as it is, an awaited instruction what
   comes for it, and plain IPLD itself, with its links filled in, at the type of the parameter.
   */
  ghost predicate GetsArgument(job: Job, st: State, evs: seq<Event>, input: Input, t: WitType, v: Val) {
    match PromiseOf(input)
    case Some(c) => GetsAwaited(job, st, evs, c, t, v)
    case None =>
      if input.InIpld? then exists j :: Filled(job, st, evs, input.ipld, j, false) && Passes(job.world.codec, t, InIpld(j), v)
      else Passes(job.world.codec, t, input, v)
  }

  // ---------------------------------------------------------------------------
  // Each kind of argument
  // ---------------------------------------------------------------------------

  /** Every answer below the position comes for its link. */
  ghost predicate AnswersFrom(job: Job, st: State, evs: seq<Event>, i: Ipld, at: Path, answers: Answers) {
    forall p :: LinkAt(i, p).Some? && answers(at + p).Some? ==>
      Sourced(job, st, evs, LinkAt(i, p).value, answers(at + p).value)
  }

  lemma BelowFrom(job: Job, st: State, evs: seq<Event>, i: Ipld, at: Path, answers: Answers, k: nat, below: Ipld)
    requires AnswersFrom(job, st, evs, i, at, answers)
    requires (i.List? && k < |i.items| && below == i.items[k]) || (i.Map? && k < |i.entries| && below == i.entries[k].value)
    ensures AnswersFrom(job, st, evs, below, at + [k], answers)
  {
    forall p | LinkAt(below, p).Some? && answers(at + [k] + p).Some?
      ensures Sourced(job, st, evs, LinkAt(below, p).value, answers(at + [k] + p).value)
    {
      assert ([k] + p)[1..] == p && LinkAt(i, [k] + p) == LinkAt(below, p);
      assert at + ([k] + p) == at + [k] + p;
    }
  }

  lemma {:induction false} SubstFills(
    job: Job, st: State, evs: seq<Event>, i: Ipld, at: Path, answers: Answers, wrap: bool)
    requires AnswersFrom(job, st, evs, i, at, answers)
    ensures Filled(job, st, evs, i, SubstAt(job.world.codec, i, at, answers, wrap), wrap)
    decreases i
  {
    match i
    case Link(c) =>
      assert LinkAt(i, []) == Some(c) && at + [] == at;
      if answers(at).Some? { assert Sourced(job, st, evs, c, answers(at).value); }
    case List(items) =>
      forall k | 0 <= k < |items|
        ensures Filled(job, st, evs, items[k], SubstAt(job.world.codec, items[k], at + [k], answers, false), false)
      {
        BelowFrom(job, st, evs, i, at, answers, k, items[k]);
        SubstFills(job, st, evs, items[k], at + [k], answers, false);
      }
    case Map(es) =>
      forall k | 0 <= k < |es|
        ensures var wrapped := es[k].key == PTR_BRANCH;
                Filled(job, st, evs, es[k].value, SubstAt(job.world.codec, es[k].value, at + [k], answers, wrapped), wrapped)
      {
        BelowFrom(job, st, evs, i, at, answers, k, es[k].value);
        SubstFills(job, st, evs, es[k].value, at + [k], answers, es[k].key == PTR_BRANCH);
      }
    case _ =>
  }

  /** The answers a task got come for its links. */
  lemma LookupsAnswer(job: Job, st: State, evs: seq<Event>, r: Running, k: nat)
    requires LookupsFrom(job, st, evs, r) && k < |r.vertex.args|
    requires r.vertex.args[k].InIpld? && ParseAwait(r.vertex.args[k].ipld).None?
    ensures AnswersFrom(job, st, evs, r.vertex.args[k].ipld, [k], AnswersOf(r.lookups))
  {
    var i, answers := r.vertex.args[k].ipld, AnswersOf(r.lookups);
    forall p | LinkAt(i, p).Some? && answers([k] + p).Some?
      ensures Sourced(job, st, evs, LinkAt(i, p).value, answers([k] + p).value)
    {
      assert ([k] + p)[1..] == p && LinkIn(r.vertex.args, [k] + p) == LinkAt(i, p);
    }
  }

  lemma AwaitedGets(job: Job, st: State, evs: seq<Event>, r: Running, k: nat, c: Cid, t: WitType, v: Val)
    requires LookupsFrom(job, st, evs, r) && k < |r.vertex.args| && PromiseOf(r.vertex.args[k]) == Some(c)
    requires LowerInput(job.world.codec, t, Resolved(job.world.codec, r)[k]) == Ok(v)
    ensures GetsAwaited(job, st, evs, c, t, v)
  {
    assert LinkIn(r.vertex.args, [k]) == Some(c) && Answered(r.lookups, [k]);
    var x := r.lookups[[k]].answer.value;
    assert Sourced(job, st, evs, c, x);
    if Reported(job, st, evs, c, x) {
      var rec :| Has(job, st, evs, rec) && rec.instruction == c && Conveys(rec, x);
      assert Comes(job, st, evs, c, rec.out.inner);
    }
    IpldFitted(job.world.codec, t, x.inner.ipld);
    assert Comes(job, st, evs, c, x.inner.ipld) && Passes(job.world.codec, t, InIpld(x.inner.ipld), v);
  }

  lemma ArgumentGets(job: Job, st: State, evs: seq<Event>, r: Running, k: nat, t: WitType, v: Val)
    requires LookupsFrom(job, st, evs, r) && k < |r.vertex.args|
    requires LowerInput(job.world.codec, t, Resolved(job.world.codec, r)[k]) == Ok(v)
    ensures GetsArgument(job, st, evs, r.vertex.args[k], t, v)
  {
    var input := r.vertex.args[k];
    if PromiseOf(input).Some? {
      AwaitedGets(job, st, evs, r, k, PromiseOf(input).value, t, v);
    } else {
      InputGiven(job.world.codec, t, Resolved(job.world.codec, r)[k]);
      if input.InIpld? {
        LookupsAnswer(job, st, evs, r, k);
        SubstFills(job, st, evs, input.ipld, [k], AnswersOf(r.lookups), false);
      }
    }
  }

  /**
   In every run, a task that is joined was called with one parameter for each argument that is
   passed, and each got what its argument stands for: awaited instructions the output of a receipt
   for them that the run has, or a resource fetched under them, lowered at the parameter's type.
   */
  lemma CalledWithArguments(job: Job, st: State, evs: seq<Event>, task: nat)
    requires Grounded(st) && Run(job, st, evs).Some? && JoinNext(job, Run(job, st, evs).value, task).Some?
    ensures var r := Run(job, st, evs).value.running[task];
            exists types, vs :: CalledWith(job.world, r, types, vs)
              && forall k :: 0 <= k < |vs| ==> GetsArgument(job, st, evs, r.vertex.args[k], types[k], vs[k])
  {
    var r := Run(job, st, evs).value.running[task];
    AllAccounted(job, st, evs);
    var types := job.world.params(r.wasm, r.vertex.fun).value;
    var vs := LowerArgs(job.world.codec, types, Resolved(job.world.codec, r)).value;
    assert CalledWith(job.world, r, types, vs);
    forall k | 0 <= k < |vs|
      ensures GetsArgument(job, st, evs, r.vertex.args[k], types[k], vs[k])
    {
      ArgumentGets(job, st, evs, r, k, types[k], vs[k]);
    }
  }
}
