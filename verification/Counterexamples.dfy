/**
 Resumed runs that go wrong: all conditions of the theorem on resumed runs hold but one, and
 the run commits another output than the fresh run did.
 */
module Counterexamples {
  import opened Wrappers
  import opened IpldModel
  import opened Wit
  import opened Inputs
  import opened Workflows
  import opened Execution
  import opened Database
  import opened Scheduler
  import opened Resume
  import opened Fetching
  import opened Worker
  import opened WorkerProgress
  import opened WorkerSafety
  import opened Meaning
  import opened Refinement
  import opened NestedLinks
  import opened Example
  import WorkerLoop

  // ---------------------------------------------------------------------------
  // Tasks that tell a link from a value
  // ---------------------------------------------------------------------------

  /** The database answers every lookup. */
  const ANSWERED: nat -> bool := n => true

  function LastTask(task: nat): seq<Event> {
    [Join(task), Commit(true), EndBatch]
  }

  lemma ClosesBatch(job: Job, st: State)
    requires st.status == Active && st.open && st.running == map[] && st.pending.None?
    ensures Next(job, st, EndBatch) == Some(st.(open := false))
  {
  }

  lemma AfterLast(job: Job, st: State, task: nat, r: Running, o: Ipld)
    requires st.running == map[task := r] && st.pending.None?
    ensures After(job, st, task, o)
         == st.(running := map[], linkmap := st.linkmap[r.vertex.cid := ResOk(ArgIpld(o))],
                tables := Committed(st.tables, job.workflow, MakeReceipt(job.world, r.vertex, o)))
  {
    assert st.running - {task} == map[];
  }

  /** The only task of a batch is joined and committed, and the batch ends. */
  lemma FinishesLast(job: Job, st: State, task: nat, r: Running, out: Output, o: Ipld)
    requires st.status == Active && st.open && st.running == map[task := r] && st.pending.None?
    requires job.workflow in st.tables.workflows && Worker.Ready(r)
    requires ExecuteTask(job.world, r) == Some(out) && OutputToIpld(job.world.codec, out) == Ok(o)
    ensures Run(job, st, LastTask(task))
         == Some(st.(running := map[], linkmap := st.linkmap[r.vertex.cid := ResOk(ArgIpld(o))],
                     tables := Committed(st.tables, job.workflow, MakeReceipt(job.world, r.vertex, o)), open := false))
  {
    Finishes(job, st, task, out, o);
    AfterLast(job, st, task, r, o);
    ClosesBatch(job, After(job, st, task, o));
    RunsMore(job, st, [Join(task), Commit(true)], After(job, st, task, o), EndBatch);
    assert [Join(task), Commit(true)] + [EndBatch] == LastTask(task);
  }

  /**
   All the theorem asks for holds but `Undisturbed`, of whose two parts one holds as told, and
   the outputs for the instruction, which is left to run, differ.
   */
  ghost predicate Breaks(
    u: Universe, full: Job, env: Env, t0: Tables, freshEvs: seq<Event>,
    indexed: map<Cid, seq<Resource>>, t: Tables, up: nat -> bool, rows: seq<seq<Receipt>>, s: TaskScheduler, evs: seq<Event>,
    c: Cid, kept: bool, reaches: bool)
  {
    && Resumption(u, full, env, t0, freshEvs, indexed, t, up, rows, s, evs)
    && LinksKept(full, s) == kept && Reaches(full, Skipped(s), Scope(s.linkmap.Keys, false)) == reaches
    && (exists b, k :: SitsCid(s.run, b, k, c))
    && !SameOutput(Run(full, Initial(map[], t0), freshEvs).value.tables,
                   Run(JobOf(full, s), Initial(s.linkmap, t), evs).value.tables, c)
  }

  lemma BreaksIf(
    u: Universe, full: Job, env: Env, t0: Tables, freshEvs: seq<Event>,
    indexed: map<Cid, seq<Resource>>, t: Tables, up: nat -> bool, rows: seq<seq<Receipt>>, s: TaskScheduler, evs: seq<Event>,
    first: Tables, resumed: Tables, b: nat, k: nat, c: Cid, kept: bool, reaches: bool)
    requires WellPosed(full, env) && HashedJob(u, full) && FreshRun(u, full, env, t0, freshEvs)
    requires SoundTables(Denote(full, env), t) && HashedTables(u, t)
    requires Restarts(full, indexed, t, up, rows, s) && Heard(u, Denote(full, env), evs)
    requires Run(JobOf(full, s), Initial(s.linkmap, t), evs).Some?
    requires Succeeded(JobOf(full, s), Run(JobOf(full, s), Initial(s.linkmap, t), evs).value)
    requires Run(full, Initial(map[], t0), freshEvs).value.tables == first
    requires Run(JobOf(full, s), Initial(s.linkmap, t), evs).value.tables == resumed
    requires SitsCid(s.run, b, k, c) && !SameOutput(first, resumed, c)
    requires LinksKept(full, s) == kept && Reaches(full, Skipped(s), Scope(s.linkmap.Keys, false)) == reaches
    ensures Breaks(u, full, env, t0, freshEvs, indexed, t, up, rows, s, evs, c, kept, reaches)
  {
  }

  lemma FreshSound(u: Universe, full: Job, env: Env, evs: seq<Event>, first: Tables)
    requires WellPosed(full, env) && HashedJob(u, full) && FreshRun(u, full, env, NOTHING, evs)
    requires Run(full, Initial(map[], NOTHING), evs).value.tables == first
    ensures SoundTables(Denote(full, env), first) && AllStored(full.run, first)
  {
    FreshIsSound(u, full, env, NOTHING, evs);
  }

  /** A task that takes one argument, which lowers to a string, tells which it got. */
  lemma TellsArgument(r: Running, s: string)
    requires |r.vertex.args| == 1 && (r.vertex.fun == "frame" || r.vertex.fun == "tag")
    requires LowerInput(Tools().codec, TString, Resolved(Tools().codec, r)[0]) == Ok(VString(s))
    ensures ExecuteTask(Tools(), r) == Some(Value(VString(Tells([VString(s)]))))
  {
    var args := Resolved(Tools().codec, r);
    var low := LowerArgs(Tools().codec, [TString], args);
    assert low.Ok? && low.value == [VString(s)];
  }

  lemma TellsIpld(s: string)
    requires s == "link" || s == "value"
    ensures OutputToIpld(Tools().codec, Value(VString(s))) == Ok(String(s))
  {
  }

  // ---------------------------------------------------------------------------
  // A link to a skipped task before the pivot
  // ---------------------------------------------------------------------------

  /** Awaits nothing and is awaited by nothing, so it comes last; its argument links to the first task. */
  const TAG := Vertex(Cid(5), "module", WASM_OP, "tag", [InIpld(List([Link(Cid(1))]))], Cid(15))

  function TagJob(): Job {
    Job(Tools(), WORKFLOW, [[CROP], [BLUR], [TAG]], RESOURCES)
  }

  function Tagged(s: string): Receipt {
    MakeReceipt(Tools(), TAG, String(s))
  }

  function TagContent(): Universe {
    (c: Cid) =>
      if c == Cid(115) then Tagged("link")
      else if c == Cid(25) then Tagged("value")
      else if c == Cid(22) then Blurred()
      else Cropped()
  }

  const TAG_INDEXED: map<Cid, seq<Resource>> :=
    map[Cid(1) := [RUrl("module")], Cid(2) := [RUrl("module")], Cid(5) := [RUrl("module")]]

  /** A run was broken off after the second batch. */
  ghost function TwoBatches(): Tables {
    Committed(Committed(NOTHING, WORKFLOW, Cropped()), WORKFLOW, Blurred())
  }

  function TagScheduler(): TaskScheduler {
    TaskScheduler(map[Cid(2) := VALUE], Some([[CROP], [BLUR]]), [[TAG]], Some(2), RESOURCES)
  }

  /** The lookup of the link, then the rest of the last batch. */
  function TagEvents(looks: seq<Event>): seq<Event> {
    [StartBatch] + looks + LastTask(0)
  }

  /** The link is found in the linkmap. */
  const LINKED: seq<Event> := [Look(0, [0, 0], SILENCE)]

  /** It is not, and the database cannot be reached. */
  function Unreached(): seq<Event> {
    ThirdLook(0, [0, 0], BROKEN)
  }

  lemma TagLinks()
    ensures LinkIn(TAG.args, [0, 0]) == Some(Cid(1))
  {
    var p: Path := [0, 0];
    assert p[1..] == [0] && p[1..][1..] == [];
    assert LinkAt(Link(Cid(1)), []) == Some(Cid(1));
  }

  /** What the task returns for an answer to its lookup. */
  lemma TagReturns(r: Running, a: Option<InstructionResult<Arg>>)
    requires r.vertex == TAG && r.lookups == map[[0, 0] := Stage.Done(a)] && (a == None || a == Some(VALUE))
    ensures Worker.Ready(r)
    ensures ExecuteTask(Tools(), r) == Some(Value(VString(if a == None then "link" else "value")))
  {
    var c, p := Tools().codec, [0] + [0];
    assert p == [0, 0];
    assert AllAnswered(List([Link(Cid(1))]), [0], r.lookups);
    assert AnswersOf(r.lookups)([0, 0]) == a;
    var item := SubstAt(c, Link(Cid(1)), [0] + [0], AnswersOf(r.lookups), false);
    var arg := Resolved(c, r)[0];
    assert arg == InIpld(SubstAt(c, List([Link(Cid(1))]), [0], AnswersOf(r.lookups), false));
    assert arg.ipld.List? && arg.ipld.items == [item];
    if a == None {
      assert item == Link(Cid(1));
      TellsArgument(r, "cid");
    } else {
      assert item == Null;
      TellsArgument(r, "null");
    }
  }

  /** The last batch, from a state whose lookups of the link give the answer. */
  lemma TagBatch(job: Job, st: State, looks: seq<Event>, a: Option<InstructionResult<Arg>>)
    requires job.world == Tools() && job.resources == RESOURCES && job.workflow == WORKFLOW
    requires st.started < |job.run| && job.run[st.started] == [TAG] && WORKFLOW in st.tables.workflows
    requires st == Initial(st.linkmap, st.tables).(started := st.started) && (a == None || a == Some(VALUE))
    requires var s1 := st.(running := map[0 := Running(TAG, [], map[])], started := st.started + 1, open := true);
             Run(job, s1, looks) == Some(AtStage(s1, 0, [0, 0], Stage.Done(a)))
    ensures var o := if a == None then "link" else "value";
            Run(job, st, TagEvents(looks))
            == Some(Initial(st.linkmap[Cid(5) := ResOk(ArgIpld(String(o)))], Committed(st.tables, WORKFLOW, Tagged(o)))
                      .(started := st.started + 1))
  {
    var o := if a == None then "link" else "value";
    var s1 := st.(running := map[0 := Running(TAG, [], map[])], started := st.started + 1, open := true);
    var r := Running(TAG, [], map[[0, 0] := Stage.Done(a)]);
    var s2 := s1.(running := map[0 := r]);
    Starts(job, st, TAG);
    assert AtStage(s1, 0, [0, 0], Stage.Done(a)) == s2 by { OneLookup(s1, [0, 0], Stage.Done(a)); }
    StartsAndLooks(job, st, s1, s2, looks);
    TagReturns(r, a);
    TellsIpld(o);
    FinishesLast(job, s2, 0, r, Value(VString(o)), String(o));
    WorkerLoop.RunMore(job, st, s2, [StartBatch] + looks, LastTask(0));
  }

  lemma OneLookup(st: State, at: Path, s: Stage)
    requires 0 in st.running && st.running == map[0 := Running(st.running[0].vertex, st.running[0].wasm, map[])]
    ensures AtStage(st, 0, at, s).running == map[0 := Running(st.running[0].vertex, st.running[0].wasm, map[at := s])]
  {
    var r := st.running[0];
    assert r.lookups[at := s] == map[at := s];
    assert st.running[0 := r.(lookups := map[at := s])] == map[0 := r.(lookups := map[at := s])];
  }

  lemma StartsAndLooks(job: Job, st: State, s1: State, s2: State, looks: seq<Event>)
    requires Next(job, st, StartBatch) == Some(s1) && Run(job, s1, looks) == Some(s2)
    ensures Run(job, st, [StartBatch] + looks) == Some(s2)
  {
    RunsOne(job, st, StartBatch);
    WorkerLoop.RunMore(job, st, s1, [StartBatch], looks);
  }

  const TAG_FRESH: seq<Event> := FRESH_EVENTS + TagEvents(LINKED)

  ghost function AllBatches(): Tables {
    Committed(TwoBatches(), WORKFLOW, Tagged("value"))
  }

  lemma TwoBatchesRun(job: Job)
    requires job.world == Tools() && job.resources == RESOURCES && job.workflow == WORKFLOW
    requires |job.run| >= 2 && job.run[0] == [CROP] && job.run[1] == [BLUR]
    ensures Run(job, Initial(map[], NOTHING), FRESH_EVENTS)
         == Some(Initial(map[Cid(1) := VALUE][Cid(2) := VALUE], TwoBatches()).(started := 2))
  {
    var s0 := Initial(map[], NOTHING);
    var evs := FIRST_TASK + [EndBatch];
    CropBatch(job, s0);
    var mid := Run(job, s0, evs).value;
    BlurBatch(job, mid);
    WorkerLoop.RunMore(job, s0, mid, evs, LAST_EVENTS);
  }

  lemma TagFreshRun()
    ensures var end := Run(TagJob(), Initial(map[], NOTHING), TAG_FRESH);
            end.Some? && end.value.tables == AllBatches() && Succeeded(TagJob(), end.value)
  {
    var job, s0 := TagJob(), Initial(map[], NOTHING);
    TwoBatchesRun(job);
    var mid := Run(job, s0, FRESH_EVENTS).value;
    var s1 := mid.(running := map[0 := Running(TAG, [], map[])], started := 3, open := true);
    TagLinks();
    RunsOne(job, s1, Look(0, [0, 0], SILENCE));
    assert s1.linkmap[Cid(1)] == VALUE;
    assert Run(job, s1, LINKED) == Some(AtStage(s1, 0, [0, 0], Stage.Done(Some(VALUE))));
    TagBatch(job, mid, LINKED, Some(VALUE));
    WorkerLoop.RunMore(job, s0, mid, FRESH_EVENTS, TagEvents(LINKED));
  }

  lemma TagResumedRun()
    ensures var st := Initial(TagScheduler().linkmap, TwoBatches());
            var end := Run(JobOf(TagJob(), TagScheduler()), st, TagEvents(Unreached()));
            && end.Some? && end.value.tables == Committed(TwoBatches(), WORKFLOW, Tagged("link"))
            && Succeeded(JobOf(TagJob(), TagScheduler()), end.value)
  {
    TagUnanswered(JobOf(TagJob(), TagScheduler()), TagScheduler().linkmap, TwoBatches());
  }

  lemma TagUnanswered(job: Job, linkmap: map<Cid, InstructionResult<Arg>>, t: Tables)
    requires job.world == Tools() && job.resources == RESOURCES && job.workflow == WORKFLOW && job.run == [[TAG]]
    requires Cid(1) !in linkmap && WORKFLOW in t.workflows
    ensures var end := Run(job, Initial(linkmap, t), TagEvents(Unreached()));
            && end.Some? && end.value.tables == Committed(t, WORKFLOW, Tagged("link")) && Succeeded(job, end.value)
  {
    var st := Initial(linkmap, t);
    var s1 := st.(running := map[0 := Running(TAG, [], map[])], started := 1, open := true);
    assert Run(job, s1, Unreached()) == Some(AtStage(s1, 0, [0, 0], Stage.Done(None))) by {
      TagLinks();
      BrokenStays(job, s1, 0, [0, 0], Cid(1));
    }
    TagBatch(job, st, Unreached(), None);
  }

  lemma TagSits(b: int, k: int, c: Cid)
    requires SitsCid(TagJob().run, b, k, c)
    ensures k == 0 && ((b == 0 && c == Cid(1)) || (b == 1 && c == Cid(2)) || (b == 2 && c == Cid(5)))
  {
  }

  lemma TagNested(v: Vertex, c: Cid)
    requires v == CROP || v == BLUR || v == TAG
    ensures Nested(v, c) <==> v == TAG && c == Cid(1)
  {
    if v == TAG {
      assert Mentions(Link(Cid(1)), c) <==> c == Cid(1);
      var items := [Link(Cid(1))];
      assert Mentions(items[0], c) <==> c == Cid(1);
      assert Mentions(List(items), c) <==> c == Cid(1);
      assert Substituted(TAG.args[0]);
    }
  }

  lemma TagWellPosed()
    ensures WellPosed(TagJob(), map[])
  {
    var run := TagJob().run;
    forall b, k, b', k', c | SitsCid(run, b, k, c) && SitsCid(run, b', k', c) ensures b == b' && k == k' {
      TagSits(b, k, c);
      TagSits(b', k', c);
    }
    forall b, k | 0 <= b < |run| && 0 <= k < |run[b]| ensures WellPosedTask(TagJob(), map[], b, run[b][k]) {
      TagTaskPosed(b, k);
    }
  }

  lemma TagTaskPosed(b: nat, k: nat)
    requires b < |TagJob().run| && k < |TagJob().run[b]|
    ensures WellPosedTask(TagJob(), map[], b, TagJob().run[b][k])
  {
    var run, v := TagJob().run, TagJob().run[b][k];
    forall b', k' | SitsCid(run, b', k', Cid(1)) ensures b' == 0 { TagSits(b', k', Cid(1)); }
    forall c | Nested(v, c) ensures NestedSettles(TagJob(), map[], b, c) {
      TagNested(v, c);
      assert SitsCid(run, 0, 0, Cid(1));
    }
    if v == TAG { assert WellFormed(List([Link(Cid(1))])); }
  }

  lemma TagHashed()
    ensures HashedJob(TagContent(), TagJob())
  {
    forall v, o | InRun(TagJob(), v) && MayReturn(TagJob(), v, o)
      ensures Hashes(TagContent(), MakeReceipt(Tools(), v, o))
    {
      assert v == CROP || v == BLUR || v == TAG;
      assert v != TAG ==> o == Null;
      assert v == TAG ==> o == String("link") || o == String("value");
    }
  }

  lemma TagResumes()
    ensures Resumes(TwoBatches(), TagJob().run, TAG_INDEXED, ANSWERED, TagScheduler())
  {
    var t := TwoBatches();
    assert t.receipts == map[Cid(21) := Cropped(), Cid(22) := Blurred()];
    assert Cids([BLUR]) == [Cid(2)] && Cids([TAG]) == [Cid(5)];
    assert Matching(t, [BLUR]) == {Cid(22)} && Matching(t, [TAG]) == {};
    assert [[CROP], [BLUR]] + [[TAG]] == TagJob().run;
    assert t.receipts[Cid(22)].instruction == Cid(2);
  }

  /** The last batch was looked up, then the pivot. */
  function TagRows(): seq<seq<Receipt>> {
    [[], [Blurred()], []]
  }

  lemma TagLooked()
    ensures Looked(TwoBatches(), TagJob().run, TAG_INDEXED, ANSWERED, 1, TagRows())
  {
    var t := TwoBatches();
    assert t.receipts == map[Cid(21) := Cropped(), Cid(22) := Blurred()];
    assert Cids([BLUR]) == [Cid(2)] && Cids([TAG]) == [Cid(5)];
    assert Database.Finds(t, [Cid(2)], [Blurred()]);
    assert Database.Finds(t, [Cid(5)], []);
  }

  lemma TagRestarts()
    ensures Restarts(TagJob(), TAG_INDEXED, TwoBatches(), ANSWERED, TagRows(), TagScheduler())
  {
    TagResumes();
    TagLooked();
    TagCompiled();
  }

  lemma TagCompiled()
    ensures Compiled(TagJob().run, TAG_INDEXED)
  {
    assert Links(CROP.args) == [] && Links(BLUR.args) == [] && Links(TAG.args) == [];
    assert ResourcesOf(CROP) == [RUrl("module")] && ResourcesOf(BLUR) == [RUrl("module")];
    assert ResourcesOf(TAG) == [RUrl("module")];
  }

  lemma TagHeard(val: Lookup)
    ensures Heard(TagContent(), val, TAG_FRESH) && Heard(TagContent(), val, TagEvents(Unreached()))
  {
  }

  lemma TagFresh()
    ensures FreshRun(TagContent(), TagJob(), map[], NOTHING, TAG_FRESH)
  {
    TagFreshRun();
    TagHeard(Denote(TagJob(), map[]));
  }

  /** What was committed before is sound: it is what the fresh run committed. */
  lemma TagSound(full: Job, first: Tables)
    requires WellPosed(full, map[]) && SoundTables(Denote(full, map[]), first) && AllStored(full.run, first)
    requires first.receipts == map[Cid(21) := Cropped(), Cid(22) := Blurred(), Cid(25) := Tagged("value")]
    ensures SoundTables(Denote(full, map[]), TwoBatches())
  {
    assert StoredOutput(first, Cid(1), OutputAsArg(Cropped())) by { assert first.receipts[Cid(21)] == Cropped(); }
    assert StoredOutput(first, Cid(2), OutputAsArg(Blurred())) by { assert first.receipts[Cid(22)] == Blurred(); }
    SoundExactly(full, map[], TwoBatches(), first);
  }

  lemma TagDiffers()
    ensures !SameOutput(AllBatches(), Committed(TwoBatches(), WORKFLOW, Tagged("link")), Cid(5))
  {
    assert IsRow(AllBatches(), Cid(25), Cid(5)) && AllBatches().receipts[Cid(25)] == Tagged("value");
    var t := Committed(TwoBatches(), WORKFLOW, Tagged("link"));
    assert IsRow(t, Cid(115), Cid(5)) && t.receipts[Cid(115)] == Tagged("link");
  }

  lemma TagUnreachable()
    ensures LinksKept(TagJob(), TagScheduler())
    ensures !Reaches(TagJob(), Skipped(TagScheduler()), Scope(TagScheduler().linkmap.Keys, false))
  {
    TagNested(TAG, Cid(1));
    assert NestedAt(TagJob(), 2, 0, Cid(1)) && RunsAt(TagJob(), 0, 0, Cid(1));
  }

  /**
   A link inside an argument to a task that is skipped, and not in the pivot: everything else
   the theorem asks for holds, and the resumed run commits another output.
   */
  lemma SkippedLinkBreaks()
    ensures Breaks(TagContent(), TagJob(), map[], NOTHING, TAG_FRESH, TAG_INDEXED, TwoBatches(), ANSWERED, TagRows(),
                   TagScheduler(), TagEvents(Unreached()), TAG.cid, true, false)
  {
    TagFreshRun();
    TagResumedRun();
    TagDiffers();
    TagWellPosed();
    TagHashed();
    TagFresh();
    TagRestarts();
    TagHeard(Denote(TagJob(), map[]));
    TagTablesSound();
    TagUnreachable();
    BreaksIf(TagContent(), TagJob(), map[], NOTHING, TAG_FRESH, TAG_INDEXED, TwoBatches(), ANSWERED, TagRows(),
             TagScheduler(), TagEvents(Unreached()), AllBatches(), Committed(TwoBatches(), WORKFLOW, Tagged("link")),
             0, 0, TAG.cid, true, false);
  }

  lemma TagFirstSound()
    ensures SoundTables(Denote(TagJob(), map[]), AllBatches()) && AllStored(TagJob().run, AllBatches())
  {
    TagWellPosed();
    TagHashed();
    TagFresh();
    TagFreshRun();
    FreshSound(TagContent(), TagJob(), map[], TAG_FRESH, AllBatches());
  }

  lemma TagTablesSound()
    ensures SoundTables(Denote(TagJob(), map[]), TwoBatches()) && HashedTables(TagContent(), TwoBatches())
  {
    TagWellPosed();
    TagFirstSound();
    TagReceipts();
    TagSound(TagJob(), AllBatches());
  }

  lemma TagReceipts()
    ensures AllBatches().receipts == map[Cid(21) := Cropped(), Cid(22) := Blurred(), Cid(25) := Tagged("value")]
    ensures HashedTables(TagContent(), TwoBatches())
  {
    assert TwoBatches().receipts == map[Cid(21) := Cropped(), Cid(22) := Blurred()];
  }

  // ---------------------------------------------------------------------------
  // A link that receipts took from the fetch
  // ---------------------------------------------------------------------------

  const PHOTO := Cid(50)

  /** A task with a link argument, that has a receipt but is run again. */
  const FRAME := Vertex(Cid(4), "module", WASM_OP, "frame", [InIpld(Link(PHOTO))], Cid(14))

  /** A batch that is not finished: of its three tasks the last two have receipts. */
  const UNFINISHED: seq<Vertex> := [FLIP, CROP, FRAME]

  const PIXELS: seq<Byte> := [7]

  const PICTURE: InstructionResult<Arg> := ResOk(ArgIpld(Bytes(PIXELS)))

  function FrameJob(): Job {
    Job(Tools(), WORKFLOW, [UNFINISHED], map[RUrl("module") := [], RCid(PHOTO) := PIXELS])
  }

  const FRAME_ENV: Env := map[PHOTO := PICTURE]

  function Framed(s: string): Receipt {
    MakeReceipt(Tools(), FRAME, String(s))
  }

  function FrameContent(): Universe {
    (c: Cid) =>
      if c == Cid(114) then Framed("link")
      else if c == Cid(24) then Framed("value")
      else if c == Cid(23) then Flipped()
      else Cropped()
  }

  /** A run was broken off after two of the three tasks. */
  ghost function TwoDone(): Tables {
    Committed(Committed(NOTHING, WORKFLOW, Cropped()), WORKFLOW, Framed("value"))
  }

  const FRAME_INDEXED: map<Cid, seq<Resource>> :=
    map[Cid(1) := [RUrl("module")], Cid(3) := [RUrl("module")], Cid(4) := [RUrl("module"), RCid(PHOTO)]]

  /** The rows in an order that takes the link. */
  function FrameRows(): seq<seq<Receipt>> {
    [[Cropped(), Framed("value")]]
  }

  /** What is left to run, all of it, and what is fetched for it, which is the module. */
  function FrameScheduler(): TaskScheduler {
    TaskScheduler(map[], None, [UNFINISHED], None, RESOURCES)
  }

  const ALL_TASKS: seq<Event> :=
    [Join(0), Commit(true)] + [Join(1), Commit(true)] + LastTask(2)

  function FrameEvents(looks: seq<Event>): seq<Event> {
    [StartBatch] + looks + ALL_TASKS
  }

  /** The photo is among the resources. */
  const AT_HAND: seq<Event> := [Look(2, [0], SILENCE), Look(2, [0], SILENCE)]

  /** It is not, and nobody has it. */
  function Unanswered(): seq<Event> {
    FourthLook(2, [0], SILENCE)
  }

  function Three(r: Running): map<nat, Running> {
    map[0 := Running(FLIP, [], map[]), 1 := Running(CROP, [], map[]), 2 := r]
  }

  lemma FrameLinks()
    ensures LinkIn(FRAME.args, [0]) == Some(PHOTO)
  {
    var p: Path := [0];
    assert p[1..] == [];
    assert LinkAt(Link(PHOTO), []) == Some(PHOTO);
  }

  lemma FrameReturns(r: Running, a: Option<InstructionResult<Arg>>)
    requires r.vertex == FRAME && r.lookups == map[[0] := Stage.Done(a)] && (a == None || a == Some(PICTURE))
    ensures Worker.Ready(r)
    ensures ExecuteTask(Tools(), r) == Some(Value(VString(if a == None then "link" else "value")))
  {
    var c := Tools().codec;
    assert AnswersOf(r.lookups)([0]) == a;
    assert Resolved(c, r)[0] == InIpld(SubstAt(c, Link(PHOTO), [0], AnswersOf(r.lookups), false));
    if a == None {
      assert Resolved(c, r)[0] == InIpld(Link(PHOTO));
      TellsArgument(r, "cid");
    } else {
      assert Resolved(c, r)[0] == InIpld(Bytes(PIXELS));
      TellsArgument(r, "bytes");
    }
  }

  ghost function ThreeCommitted(t: Tables, s: string): Tables {
    Committed(Committed(Committed(t, WORKFLOW, Flipped()), WORKFLOW, Cropped()), WORKFLOW, Framed(s))
  }

  lemma FirstTwo(job: Job, st: State, r: Running)
    requires job.world == Tools() && job.workflow == WORKFLOW && WORKFLOW in st.tables.workflows
    requires st.status == Active && st.open && st.pending.None? && st.running == Three(r)
    ensures var end := Run(job, st, [Join(0), Commit(true)] + [Join(1), Commit(true)]);
            && end.Some? && end.value.running == map[2 := r]
            && end.value.tables == Committed(Committed(st.tables, WORKFLOW, Flipped()), WORKFLOW, Cropped())
            && end.value == st.(running := end.value.running, tables := end.value.tables, linkmap := end.value.linkmap)
  {
    BothSilent(job, st, 0, 1);
    var s1 := After(job, st, 0, Null);
    assert After(job, s1, 1, Null).running == map[2 := r];
  }

  lemma FinishThree(job: Job, st: State, r: Running, s: string)
    requires job.world == Tools() && job.workflow == WORKFLOW && WORKFLOW in st.tables.workflows
    requires st.status == Active && st.open && st.pending.None? && st.running == Three(r) && r.vertex == FRAME
    requires Worker.Ready(r) && ExecuteTask(Tools(), r) == Some(Value(VString(s))) && (s == "link" || s == "value")
    ensures var end := Run(job, st, ALL_TASKS);
            && end.Some? && end.value.tables == ThreeCommitted(st.tables, s)
            && end.value.status == Active && !end.value.open && end.value.lost == st.lost && end.value.started == st.started
  {
    var evs := [Join(0), Commit(true)] + [Join(1), Commit(true)];
    FirstTwo(job, st, r);
    var mid := Run(job, st, evs).value;
    TellsIpld(s);
    FinishesLast(job, mid, 2, r, Value(VString(s)), String(s));
    WorkerLoop.RunMore(job, st, mid, evs, LastTask(2));
  }

  lemma FrameStarts(job: Job, st: State)
    requires job.run == [UNFINISHED] && RUrl("module") in job.resources && job.resources[RUrl("module")] == []
    requires st == Initial(map[], st.tables)
    ensures Next(job, st, StartBatch) == Some(st.(running := Three(Running(FRAME, [], map[])), started := 1, open := true))
  {
    assert Spawned(job, UNFINISHED) == Three(Running(FRAME, [], map[]));
  }

  lemma FrameLooked(st: State, a: Option<InstructionResult<Arg>>)
    requires st.running == Three(Running(FRAME, [], map[]))
    ensures AtStage(st, 2, [0], Stage.Done(a)).running == Three(Running(FRAME, [], map[[0] := Stage.Done(a)]))
  {
    var r := st.running[2];
    assert r.lookups[[0] := Stage.Done(a)] == map[[0] := Stage.Done(a)];
    assert st.running[2 := r.(lookups := map[[0] := Stage.Done(a)])] == Three(r.(lookups := map[[0] := Stage.Done(a)]));
  }

  lemma FrameBatch(job: Job, t: Tables, looks: seq<Event>, a: Option<InstructionResult<Arg>>)
    requires job.world == Tools() && job.workflow == WORKFLOW && WORKFLOW in t.workflows && job.run == [UNFINISHED]
    requires RUrl("module") in job.resources && job.resources[RUrl("module")] == []
    requires a == None || a == Some(PICTURE)
    requires var s1 := Initial(map[], t).(running := Three(Running(FRAME, [], map[])), started := 1, open := true);
             Run(job, s1, looks) == Some(AtStage(s1, 2, [0], Stage.Done(a)))
    ensures var end := Run(job, Initial(map[], t), FrameEvents(looks));
            && end.Some? && Succeeded(job, end.value)
            && end.value.tables == ThreeCommitted(t, if a == None then "link" else "value")
  {
    var st, s := Initial(map[], t), if a == None then "link" else "value";
    var s1 := st.(running := Three(Running(FRAME, [], map[])), started := 1, open := true);
    var s2 := AtStage(s1, 2, [0], Stage.Done(a));
    var r := Running(FRAME, [], map[[0] := Stage.Done(a)]);
    FrameStarts(job, st);
    FrameLooked(s1, a);
    StartsAndLooks(job, st, s1, s2, looks);
    FrameReturns(r, a);
    FinishThree(job, s2, r, s);
    WorkerLoop.RunMore(job, st, s2, [StartBatch] + looks, ALL_TASKS);
  }

  lemma FrameFreshRun()
    ensures var end := Run(FrameJob(), Initial(map[], NOTHING), FrameEvents(AT_HAND));
            end.Some? && end.value.tables == ThreeCommitted(NOTHING, "value") && Succeeded(FrameJob(), end.value)
  {
    var job := FrameJob();
    var s1 := Initial(map[], NOTHING).(running := Three(Running(FRAME, [], map[])), started := 1, open := true);
    FrameLinks();
    ResourceAnswers(job, s1, 2, [0], PHOTO);
    FrameBatch(job, NOTHING, AT_HAND, Some(PICTURE));
  }

  lemma ResourceAnswers(job: Job, st: State, task: nat, at: Path, c: Cid)
    requires Occurs(st, task, at, c) && c !in st.linkmap && RCid(c) in job.resources
    ensures Run(job, st, [Look(task, at, SILENCE), Look(task, at, SILENCE)])
         == Some(AtStage(st, task, at, Stage.Done(Some(ResOk(ArgIpld(Bytes(job.resources[RCid(c)])))))))
  {
    var look := Look(task, at, SILENCE);
    var s1 := AtStage(st, task, at, AtResources);
    RunsOne(job, st, look);
    assert Next(job, st, look) == Some(s1);
    AtStageAgain(st, task, at, AtResources, Stage.Done(Some(ResOk(ArgIpld(Bytes(job.resources[RCid(c)]))))));
    RunsMore(job, st, [look], s1, look);
    assert [look] + [look] == [look, look];
  }

  lemma FrameResumedRun()
    ensures var end := Run(JobOf(FrameJob(), FrameScheduler()), Initial(map[], TwoDone()), FrameEvents(Unanswered()));
            && end.Some? && end.value.tables == ThreeCommitted(TwoDone(), "link")
            && Succeeded(JobOf(FrameJob(), FrameScheduler()), end.value)
  {
    var job := JobOf(FrameJob(), FrameScheduler());
    var s1 := Initial(map[], TwoDone()).(running := Three(Running(FRAME, [], map[])), started := 1, open := true);
    FrameLinks();
    UnansweredStays(job, s1, 2, [0], PHOTO);
    FrameBatch(job, TwoDone(), Unanswered(), None);
  }

  lemma FramePushes()
    ensures PairsOf(UNFINISHED, FRAME_INDEXED)
         == [(Cid(3), RUrl("module")), (Cid(1), RUrl("module")), (Cid(4), RUrl("module")), (Cid(4), RCid(PHOTO))]
  {
    assert UNFINISHED[1..] == [CROP, FRAME] && [CROP, FRAME][1..] == [FRAME] && [FRAME][1..] == [];
    assert PairsOf([], FRAME_INDEXED) == [];
    assert PairsOf([FRAME], FRAME_INDEXED) == [(Cid(4), RUrl("module")), (Cid(4), RCid(PHOTO))];
    assert PairsOf([CROP, FRAME], FRAME_INDEXED)
      == [(Cid(1), RUrl("module")), (Cid(4), RUrl("module")), (Cid(4), RCid(PHOTO))];
  }

  /** The first receipt's removal moves the last entry forward, and the second removes it. */
  lemma TakesLast(p0: Scheduler.Pair, p1: Scheduler.Pair, p2: Scheduler.Pair, p3: Scheduler.Pair, a: Receipt, b: Receipt)
    requires p1.0 == a.instruction && p2.0 == p3.0 == b.instruction && a.instruction != b.instruction
    requires p0.0 != a.instruction && p0.0 != b.instruction
    ensures DropAll([p0, p1, p2, p3], [a, b]) == [p0, p2]
  {
    var pairs, mid := [p0, p1, p2, p3], [p0, p3, p2];
    assert pairs[1].0 == a.instruction && Scheduler.First(pairs, a.instruction) == 1;
    assert SwapRemove(pairs, 1) == mid;
    assert mid[1].0 == b.instruction && Scheduler.First(mid, b.instruction) == 1;
    assert SwapRemove(mid, 1) == [p0, p2];
    DropOne([], pairs, a);
    DropOne([a], pairs, b);
    assert [a] + [b] == [a, b];
  }

  /** With the rows in this order the receipt takes the link and leaves the module. */
  lemma LinkDropped()
    ensures Scanned([UNFINISHED], FRAME_INDEXED, FrameRows(), 0)
         == [(Cid(3), RUrl("module")), (Cid(4), RUrl("module"))]
  {
    FramePushes();
    var pairs := PairsOf(UNFINISHED, FRAME_INDEXED);
    assert [] + pairs == pairs;
    TakesLast(pairs[0], pairs[1], pairs[2], pairs[3], Cropped(), Framed("value"));
  }

  lemma FrameFound()
    ensures Looked(TwoDone(), [UNFINISHED], FRAME_INDEXED, ANSWERED, 0, FrameRows())
    ensures Resumes(TwoDone(), [UNFINISHED], FRAME_INDEXED, ANSWERED, FrameScheduler())
  {
    var t, rows := TwoDone(), FrameRows()[0];
    assert t.receipts == map[Cid(21) := Cropped(), Cid(24) := Framed("value")];
    assert Cids(UNFINISHED) == [Cid(3), Cid(1), Cid(4)];
    assert rows[0] in rows && rows[1] in rows;
    assert Database.Finds(t, Cids(UNFINISHED), rows);
    assert Matching(t, UNFINISHED) == {Cid(21), Cid(24)};
  }

  lemma FrameCompiled()
    ensures Compiled([UNFINISHED], FRAME_INDEXED)
  {
    assert Links(CROP.args) == [] && Links(FLIP.args) == [];
    assert FRAME.args[1..] == [] && Links([]) == [] && Links(FRAME.args) == [PHOTO];
    assert ResourcesOf(CROP) == [RUrl("module")] && ResourcesOf(FLIP) == [RUrl("module")];
    assert ResourcesOf(FRAME) == [RUrl("module"), RCid(PHOTO)];
  }

  lemma FrameRestarts()
    ensures Restarts(FrameJob(), FRAME_INDEXED, TwoDone(), ANSWERED, FrameRows(), FrameScheduler())
  {
    FrameFound();
    FrameCompiled();
    LinkDropped();
    forall r | r in WantedIn(Scanned([UNFINISHED], FRAME_INDEXED, FrameRows(), 0)) ensures r == RUrl("module") {
      WantedIs(Scanned([UNFINISHED], FRAME_INDEXED, FrameRows(), 0), r);
    }
  }

  lemma FrameNested(v: Vertex, c: Cid)
    requires v == CROP || v == FLIP || v == FRAME
    ensures Nested(v, c) <==> v == FRAME && c == PHOTO
  {
    if v == FRAME {
      assert Mentions(Link(PHOTO), c) <==> c == PHOTO;
      assert Substituted(FRAME.args[0]);
    }
  }

  lemma FrameWellPosed()
    ensures WellPosed(FrameJob(), FRAME_ENV)
  {
    var run := FrameJob().run;
    assert forall b, k, c :: SitsCid(run, b, k, c) ==>
      b == 0 && ((k == 0 && c == Cid(3)) || (k == 1 && c == Cid(1)) || (k == 2 && c == Cid(4)));
    forall b, k | 0 <= b < |run| && 0 <= k < |run[b]| ensures WellPosedTask(FrameJob(), FRAME_ENV, b, run[b][k]) {
      var v := run[b][k];
      forall c | Nested(v, c) ensures NestedSettles(FrameJob(), FRAME_ENV, b, c) { FrameNested(v, c); }
    }
  }

  lemma FrameHashed()
    ensures HashedJob(FrameContent(), FrameJob())
  {
    forall v, o | InRun(FrameJob(), v) && MayReturn(FrameJob(), v, o)
      ensures Hashes(FrameContent(), MakeReceipt(Tools(), v, o))
    {
      assert v == CROP || v == FLIP || v == FRAME;
      assert v != FRAME ==> o == Null;
      assert v == FRAME ==> o == String("link") || o == String("value");
    }
  }

  lemma FrameHeard(val: Lookup)
    ensures Heard(FrameContent(), val, FrameEvents(AT_HAND)) && Heard(FrameContent(), val, FrameEvents(Unanswered()))
  {
  }

  lemma FrameFresh()
    ensures FreshRun(FrameContent(), FrameJob(), FRAME_ENV, NOTHING, FrameEvents(AT_HAND))
  {
    FrameFreshRun();
    FrameHeard(Denote(FrameJob(), FRAME_ENV));
  }

  lemma FrameFirstSound()
    ensures SoundTables(Denote(FrameJob(), FRAME_ENV), ThreeCommitted(NOTHING, "value"))
    ensures AllStored(FrameJob().run, ThreeCommitted(NOTHING, "value"))
  {
    FrameWellPosed();
    FrameHashed();
    FrameFresh();
    FrameFreshRun();
    FreshSound(FrameContent(), FrameJob(), FRAME_ENV, FrameEvents(AT_HAND), ThreeCommitted(NOTHING, "value"));
  }

  lemma FrameSound(full: Job, first: Tables)
    requires WellPosed(full, FRAME_ENV) && SoundTables(Denote(full, FRAME_ENV), first) && AllStored(full.run, first)
    requires first.receipts == map[Cid(23) := Flipped(), Cid(21) := Cropped(), Cid(24) := Framed("value")]
    ensures SoundTables(Denote(full, FRAME_ENV), TwoDone())
  {
    assert StoredOutput(first, Cid(1), OutputAsArg(Cropped())) by { assert first.receipts[Cid(21)] == Cropped(); }
    assert StoredOutput(first, Cid(4), OutputAsArg(Framed("value"))) by {
      assert first.receipts[Cid(24)] == Framed("value");
    }
    SoundExactly(full, FRAME_ENV, TwoDone(), first);
  }

  lemma FrameTablesSound()
    ensures SoundTables(Denote(FrameJob(), FRAME_ENV), TwoDone()) && HashedTables(FrameContent(), TwoDone())
  {
    FrameWellPosed();
    FrameFirstSound();
    FrameReceipts();
    FrameSound(FrameJob(), ThreeCommitted(NOTHING, "value"));
  }

  lemma FrameReceipts()
    ensures ThreeCommitted(NOTHING, "value").receipts
         == map[Cid(23) := Flipped(), Cid(21) := Cropped(), Cid(24) := Framed("value")]
    ensures HashedTables(FrameContent(), TwoDone())
  {
    assert TwoDone().receipts == map[Cid(21) := Cropped(), Cid(24) := Framed("value")];
  }

  lemma FrameDiffers()
    ensures !SameOutput(ThreeCommitted(NOTHING, "value"), ThreeCommitted(TwoDone(), "link"), FRAME.cid)
  {
    var first, resumed := ThreeCommitted(NOTHING, "value"), ThreeCommitted(TwoDone(), "link");
    assert IsRow(first, Cid(24), Cid(4)) && first.receipts[Cid(24)] == Framed("value");
    assert IsRow(resumed, Cid(114), Cid(4)) && resumed.receipts[Cid(114)] == Framed("link");
  }

  lemma FrameUnkept()
    ensures !LinksKept(FrameJob(), FrameScheduler())
    ensures Reaches(FrameJob(), Skipped(FrameScheduler()), Scope(FrameScheduler().linkmap.Keys, false))
  {
    FrameNested(FRAME, PHOTO);
    assert NestedAt(JobOf(FrameJob(), FrameScheduler()), 0, 2, PHOTO);
  }

  /**
   A link that the receipts of an unfinished batch took from the fetch: everything else the
   theorem asks for holds, and the resumed run commits another output.
   */
  lemma DroppedLinkBreaks()
    ensures Breaks(FrameContent(), FrameJob(), FRAME_ENV, NOTHING, FrameEvents(AT_HAND), FRAME_INDEXED, TwoDone(), ANSWERED,
                   FrameRows(), FrameScheduler(), FrameEvents(Unanswered()), FRAME.cid, false, true)
  {
    FrameFreshRun();
    FrameResumedRun();
    FrameDiffers();
    FrameWellPosed();
    FrameHashed();
    FrameFresh();
    FrameRestarts();
    FrameHeard(Denote(FrameJob(), FRAME_ENV));
    FrameTablesSound();
    FrameUnkept();
    BreaksIf(FrameContent(), FrameJob(), FRAME_ENV, NOTHING, FrameEvents(AT_HAND), FRAME_INDEXED, TwoDone(), ANSWERED,
             FrameRows(), FrameScheduler(), FrameEvents(Unanswered()), ThreeCommitted(NOTHING, "value"),
             ThreeCommitted(TwoDone(), "link"), 0, 2, FRAME.cid, false, true);
  }
}
