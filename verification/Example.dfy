/**
 Workflows that meet the conditions of the theorems on whole runs: one of two tasks, the
 second awaiting the first, run afresh, crashed after the first and resumed; and a batch of
 two independent tasks, completed in either order.
 */
module Example {
  import opened Wrappers
  import opened IpldModel
  import opened Wit
  import opened Inputs
  import opened Workflows
  import opened Execution
  import opened Database
  import opened Scheduler
  import opened Resume
  import opened Fetching
  import opened Worker
  import opened WorkerProgress
  import opened WorkerSafety
  import opened Meaning
  import opened Refinement
  import opened NestedLinks
  import opened Interleaving
  import WorkerLoop

  const WORKFLOW := Cid(100)

  const CROP := Vertex(Cid(1), "module", WASM_OP, "crop", [], Cid(11))

  const BLUR := Vertex(Cid(2), "module", WASM_OP, "blur", [InDeferred(Await(Cid(1), AwaitOk))], Cid(12))

  const RESOURCES: map<Resource, seq<Byte>> := map[RUrl("module") := []]

  /** Functions of one parameter. */
  predicate Unary(fun: string) {
    fun == "blur" || fun == "frame" || fun == "tag"
  }

  /** What `frame` and `tag` return: whether they were passed a link. */
  function Tells(vs: seq<Val>): string {
    if vs == [VString("cid")] then "link" else "value"
  }

  /** Functions that return nothing, but for two that tell a link from a value. */
  function Tools(): World {
    World(
      Codec((c: Cid) => "cid", (s: string) => None, (b: seq<Byte>) => "bytes", (x: real) => x, (x: real) => Some(x)),
      (wasm: seq<Byte>, fun: string) => Some(if Unary(fun) then [TString] else []),
      (wasm: seq<Byte>, fun: string, vs: seq<Val>) =>
        Some(if fun == "frame" || fun == "tag" then Value(VString(Tells(vs))) else Void),
      (ran: Cid, out: Ipld, meta: Ipld) => Cid(ran.id + if out == String("link") then 100 else 10))
  }

  function Full(): Job {
    Job(Tools(), WORKFLOW, [[CROP], [BLUR]], RESOURCES)
  }

  function Rest(): Job {
    Job(Tools(), WORKFLOW, [[BLUR]], RESOURCES)
  }

  function Cropped(): Receipt {
    MakeReceipt(Tools(), CROP, Null)
  }

  function Blurred(): Receipt {
    MakeReceipt(Tools(), BLUR, Null)
  }

  function Content(): Universe {
    (c: Cid) => if c == Cid(22) then Blurred() else Cropped()
  }

  const NOTHING := Tables(map[], {WORKFLOW}, {})

  /** What is left when a run is broken off after the first task. */
  function HalfDone(): Tables {
    Tables(map[Cid(21) := Cropped()], {WORKFLOW}, {(WORKFLOW, Cid(21))})
  }

  const VALUE: InstructionResult<Arg> := ResOk(ArgIpld(Null))

  /** The scheduler after the first batch was found receipted. */
  function Resumed(): TaskScheduler {
    TaskScheduler(map[Cid(1) := VALUE], Some([[CROP]]), [[BLUR]], Some(1), RESOURCES)
  }

  const INDEXED: map<Cid, seq<Resource>> := map[Cid(1) := [RUrl("module")], Cid(2) := [RUrl("module")]]

  const FRESH_EVENTS: seq<Event> := FIRST_TASK + [EndBatch] + LAST_EVENTS

  const LAST_EVENTS: seq<Event> := [StartBatch, Look(0, [0], SILENCE), Join(0), Commit(true), EndBatch]

  // ---------------------------------------------------------------------------
  // The runs
  // ---------------------------------------------------------------------------

  lemma NoArgsReturns(r: Running)
    requires r.vertex.args == [] && !Unary(r.vertex.fun)
    ensures Worker.Ready(r) && ExecuteTask(Tools(), r) == Some(Void)
  {
    assert Resolved(Tools().codec, r) == [];
    assert LowerArgs(Tools().codec, [], []) == Ok([]);
  }

  lemma BlurReturns(r: Running)
    requires r.vertex == BLUR && r.lookups == map[[0] := Stage.Done(Some(VALUE))]
    ensures Worker.Ready(r) && ExecuteTask(Tools(), r) == Some(Void)
  {
    var c, args := Tools().codec, Resolved(Tools().codec, r);
    assert AnswersOf(r.lookups)([0]) == Some(VALUE);
    assert args[0] == InArg(VALUE);
    assert LowerInput(c, TString, args[0]) == Ok(VString("null"));
    assert LowerArgs(c, [TString], args).Ok?;
  }

  /** A batch of one task is started. */
  lemma Starts(job: Job, st: State, v: Vertex)
    requires st.status == Active && !st.open && st.started < |job.run| && job.run[st.started] == [v]
    requires v.op == WASM_OP && RUrl(v.url) in job.resources
    ensures Next(job, st, StartBatch)
         == Some(st.(running := map[0 := Running(v, job.resources[RUrl(v.url)], map[])],
                     started := st.started + 1, open := true))
  {
    assert Spawned(job, [v]) == map[0 := Running(v, job.resources[RUrl(v.url)], map[])];
  }

  /** Its one promise is found in the linkmap. */
  lemma Finds(job: Job, st: State, r: Running, c: Cid)
    requires st.status == Active && st.open && st.running == map[0 := r] && r.lookups == map[]
    requires LinkIn(r.vertex.args, [0]) == Some(c) && c in st.linkmap
    ensures Next(job, st, Look(0, [0], SILENCE))
         == Some(st.(running := map[0 := r.(lookups := map[[0] := Stage.Done(Some(st.linkmap[c]))])]))
  {
    var lookups := r.lookups[[0] := Stage.Done(Some(st.linkmap[c]))];
    assert lookups == map[[0] := Stage.Done(Some(st.linkmap[c]))];
    assert st.running[0 := r.(lookups := lookups)] == map[0 := r.(lookups := lookups)];
  }

  /** It is executed and returns nothing. */
  lemma Joins(job: Job, st: State, task: nat)
    requires st.status == Active && st.open && task in st.running && st.pending.None?
    requires Worker.Ready(st.running[task]) && ExecuteTask(job.world, st.running[task]) == Some(Void)
    ensures Next(job, st, Join(task))
         == Some(st.(running := st.running - {task}, linkmap := st.linkmap[st.running[task].vertex.cid := VALUE],
                     pending := Some(MakeReceipt(job.world, st.running[task].vertex, Null))))
  {
  }

  lemma Commits(job: Job, st: State)
    requires st.status == Active && st.pending.Some? && job.workflow in st.tables.workflows
    ensures Next(job, st, Commit(true))
         == Some(st.(tables := Committed(st.tables, job.workflow, st.pending.value), pending := None))
  {
  }

  /** The task was joined with the output, and committed. */
  ghost function After(job: Job, st: State, task: nat, o: Ipld): State
    requires task in st.running
  {
    Joined(job, st, task, o).(
      tables := Committed(st.tables, job.workflow, MakeReceipt(job.world, st.running[task].vertex, o)), pending := None)
  }

  lemma Finishes(job: Job, st: State, task: nat, out: Output, o: Ipld)
    requires st.status == Active && st.open && task in st.running && st.pending.None?
    requires job.workflow in st.tables.workflows && Worker.Ready(st.running[task])
    requires ExecuteTask(job.world, st.running[task]) == Some(out) && OutputToIpld(job.world.codec, out) == Ok(o)
    ensures Run(job, st, [Join(task), Commit(true)]) == Some(After(job, st, task, o))
  {
    var s1 := Joined(job, st, task, o);
    RunsOne(job, st, Join(task));
    RunsMore(job, st, [Join(task)], s1, Commit(true));
    assert [Join(task)] + [Commit(true)] == [Join(task), Commit(true)];
  }

  /** A task without arguments that returns nothing. */
  lemma Silent(job: Job, st: State, task: nat)
    requires job.world == Tools() && job.workflow in st.tables.workflows
    requires st.status == Active && st.open && task in st.running && st.pending.None?
    requires st.running[task].vertex.args == [] && !Unary(st.running[task].vertex.fun)
    ensures Run(job, st, [Join(task), Commit(true)]) == Some(After(job, st, task, Null))
  {
    NoArgsReturns(st.running[task]);
    Finishes(job, st, task, Void, Null);
  }

  lemma BothSilent(job: Job, st: State, a: nat, b: nat)
    requires job.world == Tools() && job.workflow in st.tables.workflows
    requires st.status == Active && st.open && st.pending.None? && a in st.running && b in st.running && a != b
    requires st.running[a].vertex.args == [] && !Unary(st.running[a].vertex.fun)
    requires st.running[b].vertex.args == [] && !Unary(st.running[b].vertex.fun)
    ensures b in After(job, st, a, Null).running
    ensures Run(job, st, [Join(a), Commit(true)] + [Join(b), Commit(true)])
         == Some(After(job, After(job, st, a, Null), b, Null))
  {
    var s1 := After(job, st, a, Null);
    Silent(job, st, a);
    Silent(job, s1, b);
    WorkerLoop.RunMore(job, st, s1, [Join(a), Commit(true)], [Join(b), Commit(true)]);
  }

  const FIRST_TASK: seq<Event> := [StartBatch, Join(0), Commit(true)]

  /** The first task is committed. */
  lemma CropCommits(job: Job)
    requires job.world == Tools() && job.resources == RESOURCES && job.workflow == WORKFLOW
    requires 0 < |job.run| && job.run[0] == [CROP]
    ensures Run(job, Initial(map[], NOTHING), FIRST_TASK)
         == Some(Initial(map[Cid(1) := VALUE], Committed(NOTHING, WORKFLOW, Cropped())).(started := 1, open := true))
  {
    var st, r := Initial(map[], NOTHING), Running(CROP, [], map[]);
    Starts(job, st, CROP);
    var s1 := Next(job, st, StartBatch).value;
    NoArgsReturns(r);
    Joins(job, s1, 0);
    assert s1.running - {0} == map[];
    var s2 := Next(job, s1, Join(0)).value;
    Commits(job, s2);
    RunsThree(job, st, s1, s2, FIRST_TASK);
  }

  lemma EndsBatch(job: Job, st: State, evs: seq<Event>)
    requires Run(job, st, evs).Some?
    requires var mid := Run(job, st, evs).value;
             mid.status == Active && mid.open && mid.running == map[] && mid.pending.None?
    ensures Run(job, st, evs + [EndBatch]) == Some(Run(job, st, evs).value.(open := false))
  {
    RunsMore(job, st, evs, Run(job, st, evs).value, EndBatch);
  }

  /** The batch of the first task. */
  lemma CropBatch(job: Job, st: State)
    requires job.world == Tools() && job.resources == RESOURCES && job.workflow == WORKFLOW
    requires st == Initial(map[], NOTHING) && 0 < |job.run| && job.run[0] == [CROP]
    ensures Run(job, st, FIRST_TASK + [EndBatch])
         == Some(Initial(map[Cid(1) := VALUE], Committed(NOTHING, WORKFLOW, Cropped())).(started := 1))
  {
    CropCommits(job);
    EndsBatch(job, st, FIRST_TASK);
  }

  /** The batch of the second task, from any state that has linked the first. */
  lemma BlurBatch(job: Job, st: State)
    requires job.world == Tools() && job.resources == RESOURCES && job.workflow == WORKFLOW
    requires st.started < |job.run| && job.run[st.started] == [BLUR]
    requires st == Initial(st.linkmap, st.tables).(started := st.started)
    requires Cid(1) in st.linkmap && st.linkmap[Cid(1)] == VALUE && WORKFLOW in st.tables.workflows
    ensures Run(job, st, LAST_EVENTS)
         == Some(Initial(st.linkmap[Cid(2) := VALUE], Committed(st.tables, WORKFLOW, Blurred()))
                   .(started := st.started + 1))
  {
    var r := Running(BLUR, [], map[]);
    var r' := r.(lookups := map[[0] := Stage.Done(Some(VALUE))]);
    var s1 := st.(running := map[0 := r], started := st.started + 1, open := true);
    var s2 := s1.(running := map[0 := r']);
    var s3 := s2.(running := map[], linkmap := st.linkmap[Cid(2) := VALUE], pending := Some(Blurred()));
    var s4 := s3.(tables := Committed(st.tables, WORKFLOW, Blurred()), pending := None);
    Starts(job, st, BLUR);
    Finds(job, s1, r, Cid(1));
    BlurJoins(job, s2, r');
    Commits(job, s3);
    RunsFour(job, st, s1, s2, s3, LAST_EVENTS[..4]);
    Closes(job, st, s4);
  }

  lemma BlurJoins(job: Job, st: State, r: Running)
    requires job.world == Tools() && r == Running(BLUR, [], map[[0] := Stage.Done(Some(VALUE))])
    requires st.status == Active && st.open && st.running == map[0 := r] && st.pending.None?
    ensures Next(job, st, Join(0))
         == Some(st.(running := map[], linkmap := st.linkmap[Cid(2) := VALUE], pending := Some(Blurred())))
  {
    BlurReturns(r);
    Joins(job, st, 0);
    assert st.running - {0} == map[];
  }

  lemma Closes(job: Job, st: State, st': State)
    requires Run(job, st, LAST_EVENTS[..4]) == Some(st')
    requires st'.status == Active && st'.open && st'.running == map[] && st'.pending.None?
    ensures Run(job, st, LAST_EVENTS) == Some(st'.(open := false))
  {
    assert LAST_EVENTS[..|LAST_EVENTS| - 1] == LAST_EVENTS[..4];
  }

  lemma RunsThree(job: Job, s0: State, s1: State, s2: State, evs: seq<Event>)
    requires |evs| == 3 && Next(job, s0, evs[0]) == Some(s1) && Next(job, s1, evs[1]) == Some(s2)
    ensures Run(job, s0, evs) == Next(job, s2, evs[2])
  {
    assert evs[..2][..1] == evs[..1] && evs[..1][..0] == [];
    assert Run(job, s0, evs[..1]) == Some(s1);
    assert Run(job, s0, evs[..2]) == Some(s2);
  }

  lemma RunsFour(job: Job, s0: State, s1: State, s2: State, s3: State, evs: seq<Event>)
    requires |evs| == 4 && Next(job, s0, evs[0]) == Some(s1) && Next(job, s1, evs[1]) == Some(s2)
    requires Next(job, s2, evs[2]) == Some(s3)
    ensures Run(job, s0, evs) == Next(job, s3, evs[3])
  {
    assert evs[..3][..2] == evs[..2] && evs[..2][..1] == evs[..1] && evs[..1][..0] == [];
    assert Run(job, s0, evs[..1]) == Some(s1);
    assert Run(job, s0, evs[..2]) == Some(s2);
    assert Run(job, s0, evs[..3]) == Some(s3);
  }

  lemma FreshEnds()
    ensures Run(Full(), Initial(map[], NOTHING), FRESH_EVENTS)
         == Some(Initial(map[Cid(1) := VALUE][Cid(2) := VALUE],
                         Committed(Committed(NOTHING, WORKFLOW, Cropped()), WORKFLOW, Blurred())).(started := 2))
  {
    var s0 := Initial(map[], NOTHING);
    var evs := FIRST_TASK + [EndBatch];
    CropBatch(Full(), s0);
    var mid := Run(Full(), s0, evs).value;
    BlurBatch(Full(), mid);
    WorkerLoop.RunMore(Full(), s0, mid, evs, LAST_EVENTS);
  }

  lemma ResumedRun()
    ensures Run(Rest(), Initial(Resumed().linkmap, HalfDone()), LAST_EVENTS)
         == Some(Initial(Resumed().linkmap[Cid(2) := VALUE], Committed(HalfDone(), WORKFLOW, Blurred())).(started := 1))
  {
    BlurBatch(Rest(), Initial(Resumed().linkmap, HalfDone()));
  }

  // ---------------------------------------------------------------------------
  // The conditions
  // ---------------------------------------------------------------------------

  lemma IsWellPosed()
    ensures WellPosed(Full(), map[])
  {
    var run := Full().run;
    forall b, k, c | SitsCid(run, b, k, c)
      ensures k == 0 && ((b == 0 && c == Cid(1)) || (b == 1 && c == Cid(2)))
    {
    }
  }

  lemma AllHashed()
    ensures HashedJob(Content(), Full())
  {
    forall v, o | InRun(Full(), v) && MayReturn(Full(), v, o)
      ensures Hashes(Content(), MakeReceipt(Tools(), v, o))
    {
      assert v == CROP || v == BLUR;
      assert o == Null;
    }
  }

  lemma IsResumed()
    ensures Resumes(HalfDone(), Full().run, INDEXED, n => true, Resumed())
  {
    var t := HalfDone();
    assert Cids([CROP]) == [Cid(1)] && Cids([BLUR]) == [Cid(2)];
    assert Matching(t, [CROP]) == {Cid(21)} && Matching(t, [BLUR]) == {};
    assert [[CROP]] + [[BLUR]] == Full().run;
    assert t.receipts[Cid(21)].instruction == Cid(1);
  }

  /** The rows the lookups gave: nothing for the second batch, the first task's receipt for the first. */
  function FoundRows(): seq<seq<Receipt>> {
    [[Cropped()], []]
  }

  lemma IsLooked()
    ensures Looked(HalfDone(), Full().run, INDEXED, n => true, 0, FoundRows())
  {
    assert Cids([CROP]) == [Cid(1)] && Cids([BLUR]) == [Cid(2)];
    assert Database.Finds(HalfDone(), [Cid(1)], [Cropped()]);
    assert Database.Finds(HalfDone(), [Cid(2)], []);
  }

  lemma IsRestart()
    ensures Restarts(Full(), INDEXED, HalfDone(), n => true, FoundRows(), Resumed())
  {
    IsResumed();
    IsLooked();
    FullCompiled();
  }

  lemma FullCompiled()
    ensures Compiled(Full().run, INDEXED)
  {
    assert Links(CROP.args) == [] && Links(BLUR.args) == [];
    assert ResourcesOf(CROP) == [RUrl("module")] && ResourcesOf(BLUR) == [RUrl("module")];
  }

  lemma NoneNested(b: int, k: int, c: Cid)
    ensures !NestedAt(Full(), b, k, c)
  {
  }

  /** Without links there is nothing to fetch for them and nothing to reach. */
  lemma Plain(full: Job, s: TaskScheduler)
    requires Skipped(s) <= |full.run| && s.run == full.run[Skipped(s)..] && forall b, k, c :: !NestedAt(full, b, k, c)
    ensures Undisturbed(full, s, false)
  {
    forall b, k, c ensures !NestedAt(JobOf(full, s), b, k, c) {
      assert !NestedAt(full, Skipped(s) + b, k, c);
    }
  }

  lemma IsUndisturbed()
    ensures Undisturbed(Full(), Resumed(), false)
  {
    forall b, k, c ensures !NestedAt(Full(), b, k, c) { NoneNested(b, k, c); }
    assert Full().run[1..] == [[BLUR]];
    Plain(Full(), Resumed());
  }

  ghost function First(): Tables {
    Committed(Committed(NOTHING, WORKFLOW, Cropped()), WORKFLOW, Blurred())
  }

  /** The receipt of the first task is sound: it is one of the fresh run's. */
  lemma HalfOf(full: Job, first: Tables)
    requires WellPosed(full, map[]) && SoundTables(Denote(full, map[]), first) && AllStored(full.run, first)
    requires Cid(21) in first.receipts && first.receipts[Cid(21)] == Cropped()
    ensures SoundTables(Denote(full, map[]), HalfDone())
  {
    assert StoredOutput(first, Cid(1), OutputAsArg(Cropped()));
    SoundExactly(full, map[], HalfDone(), first);
  }

  lemma HalfIsSound()
    requires WellPosed(Full(), map[]) && HashedJob(Content(), Full())
    requires FreshRun(Content(), Full(), map[], NOTHING, FRESH_EVENTS)
    requires Run(Full(), Initial(map[], NOTHING), FRESH_EVENTS).value.tables == First()
    ensures SoundTables(Denote(Full(), map[]), HalfDone()) && HashedTables(Content(), HalfDone())
  {
    FreshIsSound(Content(), Full(), map[], NOTHING, FRESH_EVENTS);
    HalfOf(Full(), First());
  }

  lemma NothingHeard(val: Lookup)
    ensures Heard(Content(), val, FRESH_EVENTS) && Heard(Content(), val, LAST_EVENTS)
  {
  }

  lemma IsFresh()
    ensures FreshRun(Content(), Full(), map[], NOTHING, FRESH_EVENTS)
    ensures Run(Full(), Initial(map[], NOTHING), FRESH_EVENTS).value.tables == First()
  {
    FreshEnds();
    NothingHeard(Denote(Full(), map[]));
  }

  /** The theorem applies: the resumed run commits what the fresh run committed. */
  lemma BlurredAlike()
    ensures Run(Full(), Initial(map[], NOTHING), FRESH_EVENTS).Some?
    ensures Run(Rest(), Initial(Resumed().linkmap, HalfDone()), LAST_EVENTS).Some?
    ensures SameOutput(Run(Full(), Initial(map[], NOTHING), FRESH_EVENTS).value.tables,
                       Run(Rest(), Initial(Resumed().linkmap, HalfDone()), LAST_EVENTS).value.tables, Cid(2))
  {
    IsFresh();
    ResumedRun();
    IsWellPosed();
    AllHashed();
    HalfIsSound();
    IsRestart();
    IsUndisturbed();
    NothingHeard(Denote(Full(), map[]));
    assert JobOf(Full(), Resumed()) == Rest();
    Applies(Full(), n => true);
  }

  lemma Applies(full: Job, up: nat -> bool)
    requires WellPosed(full, map[]) && HashedJob(Content(), full)
    requires FreshRun(Content(), full, map[], NOTHING, FRESH_EVENTS)
    requires SoundTables(Denote(full, map[]), HalfDone()) && HashedTables(Content(), HalfDone())
    requires Restarts(full, INDEXED, HalfDone(), up, FoundRows(), Resumed())
    requires Undisturbed(full, Resumed(), false)
    requires Heard(Content(), Denote(full, map[]), LAST_EVENTS)
    requires Run(JobOf(full, Resumed()), Initial(Resumed().linkmap, HalfDone()), LAST_EVENTS).Some?
    requires Succeeded(JobOf(full, Resumed()),
                       Run(JobOf(full, Resumed()), Initial(Resumed().linkmap, HalfDone()), LAST_EVENTS).value)
    ensures SameOutput(Run(full, Initial(map[], NOTHING), FRESH_EVENTS).value.tables,
                       Run(JobOf(full, Resumed()), Initial(Resumed().linkmap, HalfDone()), LAST_EVENTS).value.tables, Cid(2))
  {
    ResumeRefinesFresh(
      Content(), full, map[], NOTHING, FRESH_EVENTS, INDEXED, HalfDone(), up, FoundRows(), Resumed(), LAST_EVENTS);
    assert Resumed().run[0][0] == BLUR;
  }

  // ---------------------------------------------------------------------------
  // A crash
  // ---------------------------------------------------------------------------

  const CRASH_EVENTS: seq<Event> := FIRST_TASK + [Abort]

  /** The scheduler on an empty database. */
  function Afresh(): TaskScheduler {
    TaskScheduler(map[], None, Full().run, None, RESOURCES)
  }

  function Crashed(): Attempt {
    Attempt(n => true, [[], []], Afresh(), CRASH_EVENTS)
  }

  function Recovered(): Attempt {
    Attempt(n => true, FoundRows(), Resumed(), LAST_EVENTS)
  }

  lemma CrashRun()
    ensures var end := Run(Full(), Initial(map[], NOTHING), CRASH_EVENTS);
            end.Some? && end.value.tables == HalfDone() && !end.value.lost
  {
    CropCommits(Full());
    assert Committed(NOTHING, WORKFLOW, Cropped()) == HalfDone() by {
      assert {} + {(WORKFLOW, Cid(21))} == {(WORKFLOW, Cid(21))};
    }
    BreaksOff(Full(), Initial(map[], NOTHING), FIRST_TASK);
  }

  lemma BreaksOff(job: Job, st: State, evs: seq<Event>)
    requires Run(job, st, evs).Some?
    ensures Run(job, st, evs + [Abort]) == Some(Run(job, st, evs).value.(status := Failed))
  {
    RunsMore(job, st, evs, Run(job, st, evs).value, Abort);
  }

  lemma StartsAfresh()
    ensures Restarts(Full(), INDEXED, NOTHING, n => true, [[], []], Afresh())
  {
    assert Cids([CROP]) == [Cid(1)] && Cids([BLUR]) == [Cid(2)];
    assert Matching(NOTHING, [CROP]) == {} && Matching(NOTHING, [BLUR]) == {};
    assert Database.Finds(NOTHING, [Cid(1)], []) && Database.Finds(NOTHING, [Cid(2)], []);
    FullCompiled();
  }

  lemma CrashLeaves()
    ensures Leaves(Full(), NOTHING, [Crashed()]) == Some(HalfDone())
  {
    CrashRun();
    assert JobOf(Full(), Afresh()) == Full();
    assert [Crashed()][..0] == [];
  }

  lemma CrashPlain()
    ensures Undisturbed(Full(), Afresh(), false)
  {
    forall b, k, c ensures !NestedAt(Full(), b, k, c) { NoneNested(b, k, c); }
    assert Full().run[0..] == Full().run;
    Plain(Full(), Afresh());
  }

  lemma CrashHeard(val: Lookup)
    ensures Heard(Content(), val, CRASH_EVENTS)
  {
  }

  lemma HappensIf(full: Job, t: Tables, a: Attempt)
    requires Restarts(full, INDEXED, t, a.up, a.rows, a.s) && Heard(Content(), Denote(full, map[]), a.evs)
    requires JobOf(full, a.s) == full && Run(full, Initial(a.s.linkmap, t), a.evs).Some?
    requires !Run(full, Initial(a.s.linkmap, t), a.evs).value.lost && Undisturbed(full, a.s, false)
    ensures Happens(Content(), full, map[], INDEXED, t, a)
  {
  }

  lemma CrashHappens()
    ensures Happens(Content(), Full(), map[], INDEXED, NOTHING, Crashed())
  {
    StartsAfresh();
    CrashRun();
    CrashPlain();
    CrashHeard(Denote(Full(), map[]));
    HappensIf(Full(), NOTHING, Crashed());
  }

  lemma RecoveryHappens()
    ensures Happens(Content(), Full(), map[], INDEXED, HalfDone(), Recovered())
    ensures var end := Run(JobOf(Full(), Resumed()), Initial(Resumed().linkmap, HalfDone()), LAST_EVENTS);
            end.Some? && Succeeded(JobOf(Full(), Resumed()), end.value)
  {
    IsRestart();
    IsUndisturbed();
    NothingHeard(Denote(Full(), map[]));
    ResumedRun();
    assert JobOf(Full(), Resumed()) == Rest();
  }

  /** The theorem on crashes applies: a run aborted after its first task, and one that resumes from what it left. */
  lemma CrashedAlike()
    ensures Leaves(Full(), NOTHING, [Crashed()]) == Some(HalfDone())
    ensures Run(Full(), Initial(map[], NOTHING), FRESH_EVENTS).Some?
    ensures Run(Rest(), Initial(Resumed().linkmap, HalfDone()), LAST_EVENTS).Some?
    ensures SameOutput(Run(Full(), Initial(map[], NOTHING), FRESH_EVENTS).value.tables,
                       Run(Rest(), Initial(Resumed().linkmap, HalfDone()), LAST_EVENTS).value.tables, Cid(2))
  {
    IsFresh();
    IsWellPosed();
    AllHashed();
    CrashHappens();
    CrashLeaves();
    RecoveryHappens();
    assert JobOf(Full(), Resumed()) == Rest() && Resumed().run[0][0] == BLUR;
    OneCrash(Content(), Full(), NOTHING, FRESH_EVENTS, Crashed(), HalfDone(), Recovered(), 0, 0);
  }

  /** One crash and one recovery, as a chain of attempts. */
  lemma OneCrash(
    u: Universe, full: Job, t0: Tables, freshEvs: seq<Event>, crash: Attempt, t: Tables, last: Attempt, b: nat, k: nat)
    requires WellPosed(full, map[]) && HashedJob(u, full) && FreshRun(u, full, map[], t0, freshEvs)
    requires Happens(u, full, map[], INDEXED, t0, crash) && Leaves(full, t0, [crash]) == Some(t)
    requires Happens(u, full, map[], INDEXED, t, last)
    requires Succeeded(JobOf(full, last.s), Run(JobOf(full, last.s), Initial(last.s.linkmap, t), last.evs).value)
    requires b < |last.s.run| && k < |last.s.run[b]| && last.s.run[b][k].op == WASM_OP
    ensures SameOutput(Run(full, Initial(map[], t0), freshEvs).value.tables,
                       Run(JobOf(full, last.s), Initial(last.s.linkmap, t), last.evs).value.tables, last.s.run[b][k].cid)
  {
    assert [crash][..0] == [];
    assert AllHappen(u, full, map[], INDEXED, t0, [crash][..0]);
    CrashesRefineFresh(u, full, map[], t0, freshEvs, INDEXED, [crash], last);
  }

  // ---------------------------------------------------------------------------
  // Two orders of one batch
  // ---------------------------------------------------------------------------

  const FLIP := Vertex(Cid(3), "module", WASM_OP, "flip", [], Cid(13))

  function Pair(): Job {
    Job(Tools(), WORKFLOW, [[CROP, FLIP]], RESOURCES)
  }

  function Flipped(): Receipt {
    MakeReceipt(Tools(), FLIP, Null)
  }

  function PairContent(): Universe {
    (c: Cid) => if c == Cid(23) then Flipped() else Cropped()
  }

  function PairStarted(): State {
    Initial(map[], NOTHING).(running := map[0 := Running(CROP, [], map[]), 1 := Running(FLIP, [], map[])],
                             started := 1, open := true)
  }

  /** Both tasks joined and committed, `a` first. */
  function InOrder(a: nat, b: nat): seq<Event> {
    [Join(a), Commit(true), Join(b), Commit(true)]
  }

  lemma PairRuns(a: nat, b: nat)
    requires (a == 0 && b == 1) || (a == 1 && b == 0)
    ensures Run(Pair(), PairStarted(), InOrder(a, b)).Some?
    ensures BatchDone(Run(Pair(), PairStarted(), InOrder(a, b)).value)
  {
    var job, st := Pair(), PairStarted();
    BothSilent(job, st, a, b);
    assert [Join(a), Commit(true)] + [Join(b), Commit(true)] == InOrder(a, b);
    assert st.running - {a} - {b} == map[];
  }

  lemma PairHashed()
    ensures HashedJob(PairContent(), Pair())
  {
    forall v, o | InRun(Pair(), v) && MayReturn(Pair(), v, o)
      ensures Hashes(PairContent(), MakeReceipt(Tools(), v, o))
    {
      assert v == CROP || v == FLIP;
      assert o == Null;
    }
  }

  lemma PairState()
    ensures HashedState(PairContent(), Pair(), PairStarted())
    ensures InRun(Pair(), CROP) && InRun(Pair(), FLIP)
  {
    assert Pair().run[0][0] == CROP && Pair().run[0][1] == FLIP;
  }

  lemma PairLooks(x: Setting, c: Cid)
    requires x.batch == [CROP, FLIP]
    ensures !LooksUp(x, c)
  {
  }

  lemma PairSpawned()
    ensures Fetched(Pair(), [CROP, FLIP]) && Spawned(Pair(), [CROP, FLIP]) == PairStarted().running
  {
  }

  /** The conditions on the batch, for a network that answers nothing. */
  lemma QuietSetup(u: Universe, x: Setting)
    requires HashedJob(u, x.job) && HashedState(u, x.job, x.st) && |x.batch| == 2 && x.batch[0].cid != x.batch[1].cid
    requires x.st.status == Active && x.st.open && x.st.pending.None?
    requires x.job.workflow in x.st.tables.workflows && x.st.tables.receipts == map[]
    requires Fetched(x.job, x.batch) && x.st.running == Spawned(x.job, x.batch)
    requires InRun(x.job, x.batch[0]) && InRun(x.job, x.batch[1])
    requires x.heard == {} && forall c :: x.net(c).None? && !LooksUp(x, c)
    ensures Setup(u, x)
  {
  }

  lemma PairSetup(net: Net)
    requires forall c :: net(c).None?
    ensures Setup(PairContent(), Chosen(Pair(), PairStarted(), net, {}))
  {
    PairHashed();
    PairState();
    PairSpawned();
    var x := Chosen(Pair(), PairStarted(), net, {});
    forall c ensures !LooksUp(x, c) { PairLooks(x, c); }
    QuietSetup(PairContent(), x);
  }

  lemma {:induction false} CalmAll(x: Setting, evs: seq<Event>)
    requires forall k :: 0 <= k < |evs| ==> evs[k].Join? || evs[k] == Commit(true)
    requires Run(x.job, x.st, evs).Some?
    ensures CalmRun(x, evs)
  {
    if evs != [] { CalmAll(x, evs[..|evs| - 1]); }
  }

  ghost predicate Alike(job: Job, st: State, evs: seq<Event>, evs': seq<Event>) {
    && Run(job, st, evs).Some? && Run(job, st, evs').Some?
    && Run(job, st, evs).value.linkmap == Run(job, st, evs').value.linkmap
    && Run(job, st, evs).value.tables == Run(job, st, evs').value.tables
  }

  /** The theorem applies: both orders end alike. */
  lemma EitherOrder(net: Net)
    requires forall c :: net(c).None?
    ensures Alike(Pair(), PairStarted(), InOrder(0, 1), InOrder(1, 0))
  {
    assert Setup(PairContent(), Chosen(Pair(), PairStarted(), net, {})) by { PairSetup(net); }
    assert Done(Pair(), PairStarted(), InOrder(0, 1)) by { PairDone(0, 1); }
    assert Done(Pair(), PairStarted(), InOrder(1, 0)) by { PairDone(1, 0); }
    PairAlike(net);
  }

  lemma PairAlike(net: Net)
    requires Setup(PairContent(), Chosen(Pair(), PairStarted(), net, {}))
    requires Done(Pair(), PairStarted(), InOrder(0, 1)) && Done(Pair(), PairStarted(), InOrder(1, 0))
    ensures Alike(Pair(), PairStarted(), InOrder(0, 1), InOrder(1, 0))
  {
    EitherWay(PairContent(), Pair(), PairStarted(), net, InOrder(0, 1), InOrder(1, 0));
  }

  lemma PairDone(a: nat, b: nat)
    requires (a == 0 && b == 1) || (a == 1 && b == 0)
    ensures Done(Pair(), PairStarted(), InOrder(a, b))
  {
    PairRuns(a, b);
  }

  ghost predicate Done(job: Job, st: State, evs: seq<Event>) {
    && evs != [] && Run(job, st, evs).Some? && BatchDone(Run(job, st, evs).value)
    && forall k :: 0 <= k < |evs| ==> evs[k].Join? || evs[k] == Commit(true)
  }

  lemma EitherWay(u: Universe, job: Job, st: State, net: Net, evs: seq<Event>, evs': seq<Event>)
    requires 0 < st.started <= |job.run| && Setup(u, Chosen(job, st, net, {}))
    requires Done(job, st, evs) && Done(job, st, evs')
    ensures Alike(job, st, evs, evs')
  {
    CalmAll(Chosen(job, st, net, {}), evs);
    CalmAll(Chosen(job, st, net, {}), evs');
    Independence(u, job, st, net, {}, evs, evs');
  }
}
