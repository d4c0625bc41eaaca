/**
 Links inside arguments. They order no tasks and fail silently; this says exactly when
 every run resolves one alike, and what happens when not.
 */
module NestedLinks {
  import opened Wrappers
  import opened IpldModel
  import opened Inputs
  import opened Workflows
  import opened Database
  import opened Scheduler
  import opened Worker
  import opened WorkerSafety

  // ---------------------------------------------------------------------------
  // One lookup
  // ---------------------------------------------------------------------------

  /** Everything works, and nobody answers. */
  const SILENCE: Outside := Outside(true, None, None, true)

  /** The database cannot be reached. */
  const BROKEN: Outside := Outside(false, None, None, true)

  /** The state with the lookup of one occurrence at a stage. */
  function AtStage(st: State, task: nat, at: Path, s: Stage): State
    requires task in st.running
  {
    st.(running := st.running[task := st.running[task].(lookups := st.running[task].lookups[at := s])])
  }

  lemma AtStageAgain(st: State, task: nat, at: Path, s: Stage, s': Stage)
    requires task in st.running
    ensures AtStage(AtStage(st, task, at, s), task, at, s') == AtStage(st, task, at, s')
  {
    var r := st.running[task];
    assert r.lookups[at := s][at := s'] == r.lookups[at := s'];
    assert AtStage(AtStage(st, task, at, s), task, at, s').running == AtStage(st, task, at, s').running;
  }

  /** An occurrence of a link that a running task has not looked up yet. */
  ghost predicate Occurs(st: State, task: nat, at: Path, c: Cid) {
    && st.status == Active && st.open && task in st.running
    && LinkIn(st.running[task].vertex.args, at) == Some(c) && at !in st.running[task].lookups
  }

  /** Neither linked nor fetched: the database and the network are asked. */
  ghost predicate Remote(job: Job, st: State, c: Cid) {
    c !in st.linkmap && RCid(c) !in job.resources
  }

  lemma RunsOne(job: Job, st: State, ev: Event)
    ensures Run(job, st, [ev]) == Next(job, st, ev)
  {
    assert [ev][..0] == [];
    assert Run(job, st, []) == Some(st);
  }

  lemma RunsMore(job: Job, st: State, evs: seq<Event>, mid: State, ev: Event)
    requires Run(job, st, evs) == Some(mid)
    ensures Run(job, st, evs + [ev]) == Next(job, mid, ev)
  {
    assert (evs + [ev])[..|evs|] == evs;
  }

  /** A lookup of a remote link passes the linkmap and the resources. */
  lemma PassesBoth(job: Job, st: State, task: nat, at: Path, c: Cid)
    requires Occurs(st, task, at, c) && Remote(job, st, c)
    ensures Run(job, st, [Look(task, at, SILENCE), Look(task, at, SILENCE)]) == Some(AtStage(st, task, at, AtDb))
  {
    var look := Look(task, at, SILENCE);
    var s1 := AtStage(st, task, at, AtResources);
    RunsOne(job, st, look);
    assert Next(job, st, look) == Some(s1);
    AtStageAgain(st, task, at, AtResources, AtDb);
    assert Next(job, s1, look) == Some(AtStage(st, task, at, AtDb));
    RunsMore(job, st, [look], s1, look);
    assert [look] + [look] == [look, look];
  }

  /** What the database and the network may make of it. */
  function ThirdLook(task: nat, at: Path, o: Outside): seq<Event> {
    [Look(task, at, SILENCE), Look(task, at, SILENCE), Look(task, at, o)]
  }

  function FourthLook(task: nat, at: Path, o: Outside): seq<Event> {
    [Look(task, at, SILENCE), Look(task, at, SILENCE), Look(task, at, SILENCE), Look(task, at, o)]
  }

  /** When the connection fails the link is left in place, whatever the tables hold. */
  lemma BrokenStays(job: Job, st: State, task: nat, at: Path, c: Cid)
    requires Occurs(st, task, at, c) && Remote(job, st, c)
    ensures Run(job, st, ThirdLook(task, at, BROKEN)) == Some(AtStage(st, task, at, Done(None)))
  {
    var look := Look(task, at, SILENCE);
    var mid := AtStage(st, task, at, AtDb);
    PassesBoth(job, st, task, at, c);
    AtStageAgain(st, task, at, AtDb, Done(None));
    RunsMore(job, st, [look, look], mid, Look(task, at, BROKEN));
    assert [look, look] + [Look(task, at, BROKEN)] == ThirdLook(task, at, BROKEN);
  }

  lemma RowAnswers(job: Job, st: State, task: nat, at: Path, c: Cid, row: Cid)
    requires Occurs(st, task, at, c) && Remote(job, st, c) && IsRow(st.tables, row, c)
    ensures Run(job, st, ThirdLook(task, at, SILENCE.(row := Some(row))))
         == Some(AtStage(st, task, at, Done(Some(OutputAsArg(st.tables.receipts[row])))))
  {
    var look, o := Look(task, at, SILENCE), SILENCE.(row := Some(row));
    var mid := AtStage(st, task, at, AtDb);
    PassesBoth(job, st, task, at, c);
    AtStageAgain(st, task, at, AtDb, Done(Some(OutputAsArg(st.tables.receipts[row]))));
    RunsMore(job, st, [look, look], mid, Look(task, at, o));
    assert [look, look] + [Look(task, at, o)] == ThirdLook(task, at, o);
  }

  lemma PassesDb(job: Job, st: State, task: nat, at: Path, c: Cid)
    requires Occurs(st, task, at, c) && Remote(job, st, c)
    ensures Run(job, st, ThirdLook(task, at, SILENCE)) == Some(AtStage(st, task, at, AtNetwork))
  {
    var look := Look(task, at, SILENCE);
    var mid := AtStage(st, task, at, AtDb);
    PassesBoth(job, st, task, at, c);
    AtStageAgain(st, task, at, AtDb, AtNetwork);
    RunsMore(job, st, [look, look], mid, look);
    assert [look, look] + [look] == ThirdLook(task, at, SILENCE);
  }

  /** When nobody answers in time the link is left in place too, with no error. */
  lemma UnansweredStays(job: Job, st: State, task: nat, at: Path, c: Cid)
    requires Occurs(st, task, at, c) && Remote(job, st, c)
    ensures Run(job, st, FourthLook(task, at, SILENCE)) == Some(AtStage(st, task, at, Done(None)))
  {
    var look := Look(task, at, SILENCE);
    PassesDb(job, st, task, at, c);
    AtStageAgain(st, task, at, AtNetwork, Done(None));
    RunsMore(job, st, ThirdLook(task, at, SILENCE), AtStage(st, task, at, AtNetwork), look);
    assert ThirdLook(task, at, SILENCE) + [look] == FourthLook(task, at, SILENCE);
  }

  lemma NetworkAnswers(job: Job, st: State, task: nat, at: Path, c: Cid, r: Receipt)
    requires Occurs(st, task, at, c) && Remote(job, st, c) && r.instruction == c
    ensures var end := Run(job, st, FourthLook(task, at, SILENCE.(found := Some(r))));
            && end.Some? && task in end.value.running && end.value.open && end.value.started == st.started
            && at in end.value.running[task].lookups && end.value.running[task].lookups[at] == Done(Some(OutputAsArg(r)))
  {
    var o := SILENCE.(found := Some(r));
    PassesDb(job, st, task, at, c);
    var mid := AtStage(st, task, at, AtNetwork);
    RunsMore(job, st, ThirdLook(task, at, SILENCE), mid, Look(task, at, o));
    assert ThirdLook(task, at, SILENCE) + [Look(task, at, o)] == FourthLook(task, at, o);
  }

  // ---------------------------------------------------------------------------
  // Every way to resolve one occurrence
  // ---------------------------------------------------------------------------

  /** Receipts from outside are among those on offer. */
  ghost predicate Offered(offers: Receipt -> bool, ev: Event) {
    match ev
    case Look(_, _, o) => o.found.Some? ==> offers(o.found.value)
    case Gossip(r) => offers(r)
    case Straggle(r, _) => offers(r)
    case _ => true
  }

  /** A run, of whatever the tasks of the batch, the network and gossip do, in which the lookup ends with the answer. */
  ghost predicate Way(
    job: Job, st: State, offers: Receipt -> bool, task: nat, at: Path, evs: seq<Event>, a: Option<InstructionResult<Arg>>)
  {
    && (forall k :: 0 <= k < |evs| ==> Offered(offers, evs[k]))
    && Run(job, st, evs).Some?
    && var end := Run(job, st, evs).value;
       && end.started == st.started && end.open && task in end.running
       && at in end.running[task].lookups && end.running[task].lookups[at] == Done(a)
  }

  /** All sources of an answer for the CID agree on it. */
  ghost predicate OneValue(job: Job, st: State, offers: Receipt -> bool, c: Cid, x: InstructionResult<Arg>) {
    && (c in st.linkmap ==> st.linkmap[c] == x)
    && (RCid(c) in job.resources ==> ResOk(ArgIpld(Bytes(job.resources[RCid(c)]))) == x)
    && (forall k :: IsRow(st.tables, k, c) ==> OutputAsArg(st.tables.receipts[k]) == x)
    && (forall r :: offers(r) && r.instruction == c ==> OutputAsArg(r) == x)
  }

  /** No row is stored for the CID and none is on offer. */
  ghost predicate Nobody(st: State, offers: Receipt -> bool, c: Cid) {
    !HasInstruction(st.tables, c) && forall r :: offers(r) ==> r.instruction != c
  }

  /** No task of the batch makes it: none is running, none waits to be committed. */
  ghost predicate NotMade(st: State, c: Cid) {
    && (forall t :: t in st.running ==> st.running[t].vertex.cid != c)
    && (st.pending.Some? ==> st.pending.value.instruction != c)
  }

  /** Linked or fetched, so found before anyone is asked. */
  ghost predicate AtHand(job: Job, st: State, c: Cid) {
    c in st.linkmap || RCid(c) in job.resources
  }

  ghost function Expected(job: Job, st: State, c: Cid, x: InstructionResult<Arg>): Option<InstructionResult<Arg>> {
    if AtHand(job, st, c) then Some(x) else None
  }

  ghost predicate StageFits(job: Job, st: State, c: Cid, x: InstructionResult<Arg>, s: Stage) {
    match s
    case AtLinkmap => true
    case AtResources => c !in st.linkmap
    case AtDb => Remote(job, st, c)
    case AtNetwork => Remote(job, st, c)
    case Done(a) => a == Expected(job, st, c, x)
  }

  /** While the batch is open: no new source for the CID, and the lookup is on its only way. */
  ghost predicate Tame(
    job: Job, st: State, offers: Receipt -> bool, task: nat, at: Path, c: Cid, x: InstructionResult<Arg>, mid: State)
  {
    && (forall t :: t in mid.running ==> t in st.running && mid.running[t].vertex == st.running[t].vertex)
    && (c in mid.linkmap ==> mid.linkmap[c] == x) && (c in st.linkmap ==> c in mid.linkmap)
    && (!AtHand(job, st, c) ==> c !in mid.linkmap && !HasInstruction(mid.tables, c))
    && (mid.pending.Some? ==> mid.pending.value.instruction != c)
    && (task in mid.running && at in mid.running[task].lookups ==>
          StageFits(job, st, c, x, mid.running[task].lookups[at]))
  }

  /** Batches only follow one another; while this one is open, it is tame. */
  ghost predicate Follows(
    job: Job, st: State, offers: Receipt -> bool, task: nat, at: Path, c: Cid, x: InstructionResult<Arg>, mid: State)
  {
    && mid.started >= st.started
    && (mid.started == st.started && mid.open ==> Tame(job, st, offers, task, at, c, x, mid))
  }

  /** The one occurrence: its only way. */
  lemma LookTame(
    job: Job, st: State, offers: Receipt -> bool, c: Cid, x: InstructionResult<Arg>, mid: State, s: Stage, o: Outside)
    requires OneValue(job, st, offers, c, x) && (AtHand(job, st, c) || Nobody(st, offers, c))
    requires (c in mid.linkmap ==> mid.linkmap[c] == x) && (c in st.linkmap ==> c in mid.linkmap)
    requires !AtHand(job, st, c) ==> c !in mid.linkmap && !HasInstruction(mid.tables, c)
    requires StageFits(job, st, c, x, s) && (o.found.Some? ==> offers(o.found.value))
    requires ResolveCid(job, mid, c, s, o).Some?
    ensures StageFits(job, st, c, x, ResolveCid(job, mid, c, s, o).value.stage)
  {
  }

  /** A receipt on offer for another CID, or one with the only value there is. */
  lemma OfferTame(
    job: Job, st: State, offers: Receipt -> bool, c: Cid, x: InstructionResult<Arg>, mid: State, r: Receipt, ok: bool)
    requires OneValue(job, st, offers, c, x) && (AtHand(job, st, c) || Nobody(st, offers, c)) && offers(r)
    requires (c in mid.linkmap ==> mid.linkmap[c] == x) && (c in st.linkmap ==> c in mid.linkmap)
    requires !AtHand(job, st, c) ==> c !in mid.linkmap && !HasInstruction(mid.tables, c)
    ensures var linkmap := InsertNew(mid.linkmap, r.instruction, OutputAsArg(r));
            && (c in linkmap ==> linkmap[c] == x) && (c in st.linkmap ==> c in linkmap)
            && (!AtHand(job, st, c) ==> c !in linkmap)
    ensures !AtHand(job, st, c) ==>
              !HasInstruction(Stored(mid.tables, r), c) && !HasInstruction(CommitIf(job, mid.tables, r, ok), c)
  {
  }

  lemma LookFollows(
    job: Job, st: State, offers: Receipt -> bool, task: nat, at: Path, c: Cid, x: InstructionResult<Arg>, mid: State,
    t: nat, p: Path, o: Outside)
    requires OneValue(job, st, offers, c, x) && (AtHand(job, st, c) || Nobody(st, offers, c))
    requires task in st.running && LinkIn(st.running[task].vertex.args, at) == Some(c)
    requires Tame(job, st, offers, task, at, c, x, mid) && (o.found.Some? ==> offers(o.found.value))
    requires LookUp(job, mid, t, p, o).Some?
    ensures Tame(job, st, offers, task, at, c, x, LookUp(job, mid, t, p, o).value)
  {
    var end := LookUp(job, mid, t, p, o).value;
    LookEffect(job, mid, t, p, o);
    if o.found.Some? { OfferTame(job, st, offers, c, x, mid, o.found.value, o.commits); }
    if t == task && p == at {
      var r := mid.running[t];
      LookTame(job, st, offers, c, x, mid, if at in r.lookups then r.lookups[at] else AtLinkmap, o);
    } else if task in end.running && at in end.running[task].lookups {
      assert at in mid.running[task].lookups && end.running[task].lookups[at] == mid.running[task].lookups[at];
    }
  }

  lemma JoinFollows(
    job: Job, st: State, offers: Receipt -> bool, task: nat, at: Path, c: Cid, x: InstructionResult<Arg>, mid: State, t: nat)
    requires NotMade(st, c) && Tame(job, st, offers, task, at, c, x, mid) && JoinNext(job, mid, t).Some?
    ensures Tame(job, st, offers, task, at, c, x, JoinNext(job, mid, t).value)
  {
    JoinEffect(job, mid, t);
    assert mid.running[t].vertex.cid != c;
  }

  lemma SaveFollows(
    job: Job, st: State, offers: Receipt -> bool, task: nat, at: Path, c: Cid, x: InstructionResult<Arg>,
    mid: State, ok: bool)
    requires Tame(job, st, offers, task, at, c, x, mid) && CommitPending(job, mid, ok).Some?
    ensures Tame(job, st, offers, task, at, c, x, CommitPending(job, mid, ok).value)
  {
  }

  lemma HearFollows(
    job: Job, st: State, offers: Receipt -> bool, task: nat, at: Path, c: Cid, x: InstructionResult<Arg>, mid: State,
    r: Receipt, ok: bool)
    requires OneValue(job, st, offers, c, x) && (AtHand(job, st, c) || Nobody(st, offers, c)) && offers(r)
    requires Tame(job, st, offers, task, at, c, x, mid)
    ensures Tame(job, st, offers, task, at, c, x, mid.(tables := Stored(mid.tables, r)))
    ensures Tame(job, st, offers, task, at, c, x,
                 mid.(linkmap := InsertNew(mid.linkmap, r.instruction, OutputAsArg(r)),
                      tables := CommitIf(job, mid.tables, r, ok)))
  {
    OfferTame(job, st, offers, c, x, mid, r, ok);
  }

  /** Which batch is open changes only by starting the next one. */
  lemma BatchesFollow(job: Job, mid: State, ev: Event)
    requires Next(job, mid, ev).Some?
    ensures var end := Next(job, mid, ev).value;
            end.started >= mid.started && (end.started == mid.started && end.open ==> mid.open)
  {
    match ev
    case Look(t, p, o) => LookEffect(job, mid, t, p, o);
    case Join(t) => JoinEffect(job, mid, t);
    case _ =>
  }

  lemma StepFollows(
    job: Job, st: State, offers: Receipt -> bool, task: nat, at: Path, c: Cid, x: InstructionResult<Arg>,
    mid: State, ev: Event)
    requires OneValue(job, st, offers, c, x) && (AtHand(job, st, c) || Nobody(st, offers, c)) && NotMade(st, c)
    requires task in st.running && LinkIn(st.running[task].vertex.args, at) == Some(c)
    requires Follows(job, st, offers, task, at, c, x, mid) && Offered(offers, ev) && Next(job, mid, ev).Some?
    ensures Follows(job, st, offers, task, at, c, x, Next(job, mid, ev).value)
  {
    var end := Next(job, mid, ev).value;
    BatchesFollow(job, mid, ev);
    if end.started == st.started && end.open {
      match ev
      case Look(t, p, o) => LookFollows(job, st, offers, task, at, c, x, mid, t, p, o);
      case Join(t) => JoinFollows(job, st, offers, task, at, c, x, mid, t);
      case Commit(ok) => SaveFollows(job, st, offers, task, at, c, x, mid, ok);
      case Gossip(r) => HearFollows(job, st, offers, task, at, c, x, mid, r, true);
      case Straggle(r, ok) => HearFollows(job, st, offers, task, at, c, x, mid, r, ok);
      case _ =>
    }
  }

  lemma {:induction false} WayFollows(
    job: Job, st: State, offers: Receipt -> bool, task: nat, at: Path, c: Cid, x: InstructionResult<Arg>, evs: seq<Event>)
    requires OneValue(job, st, offers, c, x) && (AtHand(job, st, c) || Nobody(st, offers, c)) && NotMade(st, c)
    requires Occurs(st, task, at, c)
    requires (forall k :: 0 <= k < |evs| ==> Offered(offers, evs[k])) && Run(job, st, evs).Some?
    ensures Follows(job, st, offers, task, at, c, x, Run(job, st, evs).value)
  {
    if evs != [] {
      var front := evs[..|evs| - 1];
      WayFollows(job, st, offers, task, at, c, x, front);
      StepFollows(job, st, offers, task, at, c, x, Run(job, st, front).value, evs[|evs| - 1]);
    }
  }

  /** Every way resolves the occurrence alike. */
  ghost predicate Alike(job: Job, st: State, offers: Receipt -> bool, task: nat, at: Path) {
    forall evs, evs', a, a' ::
      Way(job, st, offers, task, at, evs, a) && Way(job, st, offers, task, at, evs', a') ==> a == a'
  }

  /**
   A link inside an argument, at any position of any argument, that no task of its own batch
   makes: all runs resolve it alike if and only if it is linked or fetched when
   the batch runs, or nobody can answer it at all.
   */
  lemma NestedExactly(
    job: Job, st: State, offers: Receipt -> bool, task: nat, at: Path, c: Cid, x: InstructionResult<Arg>)
    requires Occurs(st, task, at, c) && NotMade(st, c) && OneValue(job, st, offers, c, x)
    ensures Alike(job, st, offers, task, at) <==> AtHand(job, st, c) || Nobody(st, offers, c)
  {
    if AtHand(job, st, c) || Nobody(st, offers, c) {
      forall evs, evs', a, a' | Way(job, st, offers, task, at, evs, a) && Way(job, st, offers, task, at, evs', a')
        ensures a == a'
      {
        WayFollows(job, st, offers, task, at, c, x, evs);
        WayFollows(job, st, offers, task, at, c, x, evs');
      }
    } else {
      BrokenWay(job, st, offers, task, at, c);
      var evs := AnsweredWay(job, st, offers, task, at, c, x);
    }
  }

  lemma BrokenWay(job: Job, st: State, offers: Receipt -> bool, task: nat, at: Path, c: Cid)
    requires Occurs(st, task, at, c) && Remote(job, st, c)
    ensures Way(job, st, offers, task, at, ThirdLook(task, at, BROKEN), None)
  {
    BrokenStays(job, st, task, at, c);
  }

  lemma AnsweredWay(job: Job, st: State, offers: Receipt -> bool, task: nat, at: Path, c: Cid, x: InstructionResult<Arg>)
    returns (evs: seq<Event>)
    requires Occurs(st, task, at, c) && Remote(job, st, c) && OneValue(job, st, offers, c, x) && !Nobody(st, offers, c)
    ensures Way(job, st, offers, task, at, evs, Some(x))
  {
    if HasInstruction(st.tables, c) {
      var row :| row in st.tables.receipts && st.tables.receipts[row].instruction == c;
      assert IsRow(st.tables, row, c);
      RowAnswers(job, st, task, at, c, row);
      evs := ThirdLook(task, at, SILENCE.(row := Some(row)));
    } else {
      var r :| offers(r) && r.instruction == c;
      NetworkAnswers(job, st, task, at, c, r);
      evs := FourthLook(task, at, SILENCE.(found := Some(r)));
    }
  }

  // ---------------------------------------------------------------------------
  // What an answer makes of the argument
  // ---------------------------------------------------------------------------

  lemma {:induction false} SubstAtSame(c: Wit.Codec, i: Ipld, at: Path, f: Answers, g: Answers, wrap: bool)
    requires forall p :: LinkAt(i, p).Some? ==> f(at + p) == g(at + p)
    ensures SubstAt(c, i, at, f, wrap) == SubstAt(c, i, at, g, wrap)
    decreases i
  {
    match i
    case Link(_) => assert LinkAt(i, []).Some? && at + [] == at;
    case List(items) =>
      forall k | 0 <= k < |items|
        ensures SubstAt(c, items[k], at + [k], f, false) == SubstAt(c, items[k], at + [k], g, false)
      {
        forall p | LinkAt(items[k], p).Some? ensures f(at + [k] + p) == g(at + [k] + p) { BelowAgrees(i, at, k, p, f, g); }
        SubstAtSame(c, items[k], at + [k], f, g, false);
      }
      assert SubstAt(c, i, at, f, wrap).items == SubstAt(c, i, at, g, wrap).items;
    case Map(es) =>
      forall k | 0 <= k < |es|
        ensures SubstAt(c, es[k].value, at + [k], f, es[k].key == PTR_BRANCH)
             == SubstAt(c, es[k].value, at + [k], g, es[k].key == PTR_BRANCH)
      {
        forall p | LinkAt(es[k].value, p).Some? ensures f(at + [k] + p) == g(at + [k] + p) { BelowAgrees(i, at, k, p, f, g); }
        SubstAtSame(c, es[k].value, at + [k], f, g, es[k].key == PTR_BRANCH);
      }
      assert SubstAt(c, i, at, f, wrap).entries == SubstAt(c, i, at, g, wrap).entries;
    case _ =>
  }

  lemma BelowAgrees(i: Ipld, at: Path, k: nat, p: Path, f: Answers, g: Answers)
    requires forall q :: LinkAt(i, q).Some? ==> f(at + q) == g(at + q)
    requires LinkAt(i, [k] + p).Some?
    ensures f(at + [k] + p) == g(at + [k] + p)
  {
    assert at + ([k] + p) == at + [k] + p;
  }

  /** Whether the link at the position stands for the whole result. */
  function Wraps(i: Ipld, p: Path, wrap: bool): bool
    decreases i
  {
    if p == [] then wrap
    else
      match i
      case List(items) => if p[0] < |items| then Wraps(items[p[0]], p[1..], false) else wrap
      case Map(es) => if p[0] < |es| then Wraps(es[p[0]].value, p[1..], es[p[0]].key == PTR_BRANCH) else wrap
      case _ => wrap
  }

  ghost predicate AgreeBut(f: Answers, g: Answers, at: Path) {
    forall q :: q != at ==> f(q) == g(q)
  }

  lemma OtherChild(c: Wit.Codec, i: Ipld, at: Path, k: nat, p: Path, f: Answers, g: Answers, wrap: bool)
    requires p != [] && k != p[0] && AgreeBut(f, g, at + p)
    ensures SubstAt(c, i, at + [k], f, wrap) == SubstAt(c, i, at + [k], g, wrap)
  {
    forall q | LinkAt(i, q).Some? ensures f(at + [k] + q) == g(at + [k] + q) {
      assert (at + [k] + q)[|at|] == k && (at + p)[|at|] == p[0];
    }
    SubstAtSame(c, i, at + [k], f, g, wrap);
  }

  /** Two ways to answer that differ at one occurrence give different arguments exactly if the answers read differently. */
  lemma {:induction false} SubstAtDiffers(c: Wit.Codec, i: Ipld, at: Path, p: Path, f: Answers, g: Answers, wrap: bool)
    requires LinkAt(i, p).Some? && AgreeBut(f, g, at + p)
    ensures SubstAt(c, i, at, f, wrap) == SubstAt(c, i, at, g, wrap) <==>
            var id := LinkAt(i, p).value;
            Replace(c, id, f(at + p), Wraps(i, p, wrap)) == Replace(c, id, g(at + p), Wraps(i, p, wrap))
    decreases i
  {
    if p == [] {
      assert at + p == at;
    } else {
      var j, rest := p[0], p[1..];
      assert at + [j] + rest == at + p;
      match i
      case List(items) =>
        SubstAtDiffers(c, items[j], at + [j], rest, f, g, false);
        forall k | 0 <= k < |items| && k != j
          ensures SubstAt(c, items[k], at + [k], f, false) == SubstAt(c, items[k], at + [k], g, false)
        {
          OtherChild(c, items[k], at, k, p, f, g, false);
        }
        ListsDiffer(c, items, at, j, f, g, wrap);
      case Map(es) =>
        SubstAtDiffers(c, es[j].value, at + [j], rest, f, g, es[j].key == PTR_BRANCH);
        forall k | 0 <= k < |es| && k != j
          ensures SubstAt(c, es[k].value, at + [k], f, es[k].key == PTR_BRANCH)
               == SubstAt(c, es[k].value, at + [k], g, es[k].key == PTR_BRANCH)
        {
          OtherChild(c, es[k].value, at, k, p, f, g, es[k].key == PTR_BRANCH);
        }
        MapsDiffer(c, es, at, j, f, g, wrap);
      case _ =>
    }
  }

  lemma ListsDiffer(c: Wit.Codec, items: seq<Ipld>, at: Path, j: nat, f: Answers, g: Answers, wrap: bool)
    requires j < |items| && forall k :: 0 <= k < |items| && k != j ==>
               SubstAt(c, items[k], at + [k], f, false) == SubstAt(c, items[k], at + [k], g, false)
    ensures SubstAt(c, List(items), at, f, wrap) == SubstAt(c, List(items), at, g, wrap)
            <==> SubstAt(c, items[j], at + [j], f, false) == SubstAt(c, items[j], at + [j], g, false)
  {
    var x, y := SubstAt(c, List(items), at, f, wrap), SubstAt(c, List(items), at, g, wrap);
    assert x.items[j] == SubstAt(c, items[j], at + [j], f, false) && y.items[j] == SubstAt(c, items[j], at + [j], g, false);
    if SubstAt(c, items[j], at + [j], f, false) == SubstAt(c, items[j], at + [j], g, false) { assert x.items == y.items; }
  }

  lemma MapsDiffer(c: Wit.Codec, es: seq<Entry>, at: Path, j: nat, f: Answers, g: Answers, wrap: bool)
    requires j < |es| && forall k :: 0 <= k < |es| && k != j ==>
               SubstAt(c, es[k].value, at + [k], f, es[k].key == PTR_BRANCH)
               == SubstAt(c, es[k].value, at + [k], g, es[k].key == PTR_BRANCH)
    ensures SubstAt(c, Map(es), at, f, wrap) == SubstAt(c, Map(es), at, g, wrap)
            <==> SubstAt(c, es[j].value, at + [j], f, es[j].key == PTR_BRANCH)
                 == SubstAt(c, es[j].value, at + [j], g, es[j].key == PTR_BRANCH)
  {
    var x, y := SubstAt(c, Map(es), at, f, wrap), SubstAt(c, Map(es), at, g, wrap);
    assert x.entries[j].value == SubstAt(c, es[j].value, at + [j], f, es[j].key == PTR_BRANCH);
    assert y.entries[j].value == SubstAt(c, es[j].value, at + [j], g, es[j].key == PTR_BRANCH);
    if x.entries[j].value == y.entries[j].value { assert x.entries == y.entries; }
  }

  // ---------------------------------------------------------------------------
  // Two tasks of one batch
  // ---------------------------------------------------------------------------

  /** The task with one more lookup answered. */
  function Told(r: Running, at: Path, a: Option<InstructionResult<Arg>>): Running {
    r.(lookups := r.lookups[at := Done(a)])
  }

  lemma {:induction false} AnsweredAlike(i: Ipld, at: Path, l: map<Path, Stage>, l': map<Path, Stage>)
    requires forall p :: Answered(l, p) <==> Answered(l', p)
    ensures AllAnswered(i, at, l) <==> AllAnswered(i, at, l')
    decreases i
  {
    match i
    case List(items) =>
      forall k | 0 <= k < |items| ensures AllAnswered(items[k], at + [k], l) <==> AllAnswered(items[k], at + [k], l') {
        AnsweredAlike(items[k], at + [k], l, l');
      }
    case Map(es) =>
      forall k | 0 <= k < |es| ensures AllAnswered(es[k].value, at + [k], l) <==> AllAnswered(es[k].value, at + [k], l') {
        AnsweredAlike(es[k].value, at + [k], l, l');
      }
    case _ =>
  }

  /** A task waits for one answer, whichever it is. */
  lemma ReadyAlike(r: Running, at: Path, a: Option<InstructionResult<Arg>>, a': Option<InstructionResult<Arg>>)
    ensures Ready(Told(r, at, a)) <==> Ready(Told(r, at, a'))
  {
    var l, l' := Told(r, at, a).lookups, Told(r, at, a').lookups;
    forall k | 0 <= k < |r.vertex.args|
      ensures InputAnswered(r.vertex.args[k], [k], l) <==> InputAnswered(r.vertex.args[k], [k], l')
    {
      if Substituted(r.vertex.args[k]) { AnsweredAlike(r.vertex.args[k].ipld, [k], l, l'); }
    }
    assert forall k :: 0 <= k < |r.vertex.args| ==>
      (InputAnswered(r.vertex.args[k], [k], l) <==> InputAnswered(r.vertex.args[k], [k], l'));
  }

  /** What the link at the position reads as once it is answered by `x`. */
  ghost function Reading(c: Wit.Codec, r: Running, at: Path, id: Cid, x: InstructionResult<Arg>): Ipld
    requires at != [] && at[0] < |r.vertex.args| && r.vertex.args[at[0]].InIpld?
  {
    Replace(c, id, Some(x), Wraps(r.vertex.args[at[0]].ipld, at[1..], false))
  }

  /** With an answer and without, the arguments are the same only if the answer reads as the bare link. */
  lemma ArgumentsDiffer(c: Wit.Codec, r: Running, at: Path, id: Cid, x: InstructionResult<Arg>)
    requires LinkIn(r.vertex.args, at) == Some(id) && Substituted(r.vertex.args[at[0]])
    ensures Resolved(c, Told(r, at, None)) == Resolved(c, Told(r, at, Some(x))) <==> Reading(c, r, at, id, x) == Link(id)
  {
    var early, late := Told(r, at, None), Told(r, at, Some(x));
    var f, g := AnswersOf(early.lookups), AnswersOf(late.lookups);
    var k, p := at[0], at[1..];
    assert [k] + p == at && AgreeBut(f, g, at);
    SubstAtDiffers(c, r.vertex.args[k].ipld, [k], p, f, g, false);
    forall j | 0 <= j < |r.vertex.args| && j != k
      ensures Resolved(c, early)[j] == Resolved(c, late)[j]
    {
      if Substituted(r.vertex.args[j]) {
        forall q | LinkAt(r.vertex.args[j].ipld, q).Some? ensures f([j] + q) == g([j] + q) { assert ([j] + q)[0] != at[0]; }
        SubstAtSame(c, r.vertex.args[j].ipld, [j], f, g, false);
      } else {
        assert [j] != at;
      }
    }
    assert Resolved(c, early)[k] == InIpld(SubstAt(c, r.vertex.args[k].ipld, [k], f, false));
    assert Resolved(c, late)[k] == InIpld(SubstAt(c, r.vertex.args[k].ipld, [k], g, false));
  }

  /**
   Two tasks of one batch, one with a link to the other anywhere inside an argument. Whether
   the other is joined before or after the lookup decides what the first is executed
   with; the two differ exactly if the other's output does not read as the bare link.
   */
  lemma NestedPromisesRace(job: Job, st: State, first: nat, second: nat, at: Path, o: Ipld)
    requires first in st.running && first != second && Occurs(st, second, at, st.running[first].vertex.cid)
    requires st.pending.None? && Substituted(st.running[second].vertex.args[at[0]])
    requires Remote(job, st, st.running[first].vertex.cid)
    requires JoinNext(job, st, first) == Some(Joined(job, st, first, o))
    ensures var r, x := st.running[second], ResOk(ArgIpld(o));
            && Run(job, st, ThirdLook(second, at, BROKEN)) == Some(AtStage(st, second, at, Done(None)))
            && Run(job, st, [Join(first), Look(second, at, SILENCE)])
               == Some(AtStage(Joined(job, st, first, o), second, at, Done(Some(x))))
            && (Ready(Told(r, at, None)) <==> Ready(Told(r, at, Some(x))))
            && (Resolved(job.world.codec, Told(r, at, None)) == Resolved(job.world.codec, Told(r, at, Some(x)))
                <==> Reading(job.world.codec, r, at, st.running[first].vertex.cid, x) == Link(st.running[first].vertex.cid))
  {
    var c, r, x := st.running[first].vertex.cid, st.running[second], ResOk(ArgIpld(o));
    BrokenStays(job, st, second, at, c);
    LateRun(job, st, first, second, at, o);
    ReadyAlike(r, at, None, Some(x));
    ArgumentsDiffer(job.world.codec, r, at, c, x);
  }

  lemma LateRun(job: Job, st: State, first: nat, second: nat, at: Path, o: Ipld)
    requires st.status == Active && st.open && first != second && first in st.running && second in st.running
    requires JoinNext(job, st, first) == Some(Joined(job, st, first, o))
    requires LinkIn(st.running[second].vertex.args, at) == Some(st.running[first].vertex.cid)
    requires at !in st.running[second].lookups
    ensures Run(job, st, [Join(first), Look(second, at, SILENCE)])
         == Some(AtStage(Joined(job, st, first, o), second, at, Done(Some(ResOk(ArgIpld(o))))))
  {
    var mid := Joined(job, st, first, o);
    RunsOne(job, st, Join(first));
    RunsMore(job, st, [Join(first)], mid, Look(second, at, SILENCE));
    assert [Join(first)] + [Look(second, at, SILENCE)] == [Join(first), Look(second, at, SILENCE)];
  }

  // ---------------------------------------------------------------------------
  // A link argument that was not fetched
  // ---------------------------------------------------------------------------

  /**
   A task whose link argument is not among its fetched resources may be executed with the
   bare link; with the resource it is executed with its bytes.
   */
  lemma DroppedLinkStays(job: Job, st: State, task: nat, k: nat, c: Cid, bytes: seq<Byte>)
    requires task in st.running && k < |st.running[task].vertex.args|
    requires st.running[task].vertex.args[k] == InIpld(Link(c)) && Occurs(st, task, [k], c) && Remote(job, st, c)
    ensures Run(job, st, ThirdLook(task, [k], BROKEN)) == Some(AtStage(st, task, [k], Done(None)))
    ensures Resolved(job.world.codec, Told(st.running[task], [k], None))[k] == InIpld(Link(c))
    ensures Resolved(job.world.codec, Told(st.running[task], [k], Some(ResOk(ArgIpld(Bytes(bytes))))))[k]
         == InIpld(Bytes(bytes))
  {
    BrokenStays(job, st, task, [k], c);
  }
}
