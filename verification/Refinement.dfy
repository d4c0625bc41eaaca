/**
 A resumed run computes what a fresh run computes, whatever earlier runs were broken off
 before it.
 */
module Refinement {
  import opened Wrappers
  import opened IpldModel
  import opened Inputs
  import opened Workflows
  import opened Database
  import opened Scheduler
  import opened Resume
  import opened Fetching
  import opened Losses
  import opened Worker
  import opened WorkerSafety
  import opened WorkerProgress
  import opened Meaning
  import Provenance

  /** Receipts of an instruction, one in each store, with the same output in all of them. */
  ghost predicate SameOutput(t: Tables, t': Tables, c: Cid) {
    && HasInstruction(t, c) && HasInstruction(t', c)
    && forall k, k' :: IsRow(t, k, c) && IsRow(t', k', c) ==> t.receipts[k].out == t'.receipts[k'].out
  }

  lemma SoundOutputsAgree(val: Lookup, t: Tables, t': Tables, c: Cid)
    requires SoundTables(val, t) && SoundTables(val, t') && HasInstruction(t, c) && HasInstruction(t', c)
    ensures SameOutput(t, t', c)
  {
    forall k, k' | IsRow(t, k, c) && IsRow(t', k', c) ensures t.receipts[k].out == t'.receipts[k'].out {
      assert SoundReceipt(val, t.receipts[k]) && SoundReceipt(val, t'.receipts[k']);
      assert OutputAsArg(t.receipts[k]) == OutputAsArg(t'.receipts[k']);
    }
  }

  /** What a run is allowed to hear from outside: sound receipts, named by their content. */
  ghost predicate Heard(u: Universe, val: Lookup, evs: seq<Event>) {
    forall k :: 0 <= k < |evs| ==> SoundEvent(val, evs[k]) && HashedEvent(u, evs[k])
  }

  /** The database holds receipts for the outside of the workflow only. */
  ghost predicate OutsideOnly(env: Env, t: Tables) {
    forall k :: k in t.receipts ==>
      t.receipts[k].instruction in env && env[t.receipts[k].instruction] == OutputAsArg(t.receipts[k])
  }

  lemma OutsideSound(job: Job, env: Env, t: Tables)
    requires WellPosed(job, env) && OutsideOnly(env, t)
    ensures SoundTables(Denote(job, env), t)
  {
    forall k | k in t.receipts ensures SoundReceipt(Denote(job, env), t.receipts[k]) {
      OthersKeep(job, env, t.receipts[k].instruction);
    }
  }

  /** Every Wasm task of the run has a receipt. */
  ghost predicate AllStored(run: seq<seq<Vertex>>, t: Tables) {
    forall b, k :: 0 <= b < |run| && 0 <= k < |run[b]| && run[b][k].op == WASM_OP ==> HasInstruction(t, run[b][k].cid)
  }

  /** A run from sound tables stays sound, and if it succeeds it committed all its tasks. */
  lemma RunIsSound(
    u: Universe, job: Job, val: Lookup, sc: Scope, linkmap: map<Cid, InstructionResult<Arg>>, t: Tables, evs: seq<Event>)
    requires Meaningful(job, val, sc) && HashedJob(u, job) && Heard(u, val, evs)
    requires SoundTables(val, t) && SoundLinkmap(val, linkmap) && HashedTables(u, t)
    requires forall c :: c in sc.known ==> c in linkmap
    requires Run(job, Initial(linkmap, t), evs).Some?
    requires sc.lossy || !Run(job, Initial(linkmap, t), evs).value.lost
    ensures var end := Run(job, Initial(linkmap, t), evs).value;
            && SoundTables(val, end.tables) && HashedTables(u, end.tables)
            && (Succeeded(job, end) ==> AllStored(job.run, end.tables))
  {
    InitialSound(job, val, sc, linkmap, t);
    Safety(job, val, sc, Initial(linkmap, t), evs);
    CommitsEverything(u, job, Initial(linkmap, t), evs);
  }

  // ---------------------------------------------------------------------------
  // A resumed run
  // ---------------------------------------------------------------------------

  /** The job of a worker that starts from the scheduler. */
  function JobOf(full: Job, s: TaskScheduler): Job {
    Job(full.world, full.workflow, s.run, s.resources)
  }

  function Skipped(s: TaskScheduler): nat {
    if s.ran.Some? then |s.ran.value| else 0
  }

  /** What `init` leaves: the split of the schedule, and what fetching the wanted resources gave. */
  ghost predicate Restarts(
    full: Job, indexed: map<Cid, seq<Resource>>, t: Tables, up: nat -> bool, rows: seq<seq<Receipt>>, s: TaskScheduler)
  {
    && Resumes(t, full.run, indexed, up, s) && Looked(t, full.run, indexed, up, From(s), rows)
    && From(s) <= |full.run| && Compiled(full.run, indexed)
    && (forall r :: r in s.resources ==> r in full.resources && s.resources[r] == full.resources[r])
    && (forall r :: r in WantedIn(Scanned(full.run, indexed, rows, From(s))) && r in full.resources ==> r in s.resources)
  }

  /** The resources that arguments of tasks left to run link to were fetched. */
  ghost predicate LinksKept(full: Job, s: TaskScheduler) {
    forall b, k, c :: NestedAt(JobOf(full, s), b, k, c) && RCid(c) in full.resources ==> RCid(c) in s.resources
  }

  /**
   Two things a caller of `init` can see that the resumed run depends on: links of tasks left
   to run to resources were fetched, and their links to skipped tasks lead to tasks of
   the pivot.
   */
  ghost predicate Undisturbed(full: Job, s: TaskScheduler, lossy: bool) {
    LinksKept(full, s) && Reaches(full, Skipped(s), Scope(s.linkmap.Keys, lossy))
  }

  /** A resource that an argument of a task from batch `n` on links to. */
  ghost predicate LinksTo(full: Job, n: nat, c: Cid) {
    RCid(c) in full.resources && exists b, k :: n <= b && NestedAt(full, b, k, c)
  }

  /**
   The links of tasks left to run are fetched in every order of rows if and only if each is kept
   by some task from the pivot on: a condition on the schedule and the receipts alone.
   */
  lemma LinksFetchedExactly(
    full: Job, indexed: map<Cid, seq<Resource>>, t: Tables, up: nat -> bool, from: nat, n: nat)
    requires Keyed(t) && DistinctTasks(full.run) && Compiled(full.run, indexed) && OneReceiptEach(t, full.run)
    requires from <= |full.run| && forall c :: LinksTo(full, n, c) ==> OncePerBatch(full.run, indexed, from, RCid(c))
    ensures (forall rows, c :: Looked(t, full.run, indexed, up, from, rows) && LinksTo(full, n, c) ==>
               RCid(c) in WantedIn(Scanned(full.run, indexed, rows, from)))
            <==> forall c :: LinksTo(full, n, c) ==> KeptFrom(t, full.run, indexed, up, from, RCid(c))
  {
    forall c | LinksTo(full, n, c)
      ensures (forall rows :: Looked(t, full.run, indexed, up, from, rows) ==>
                 RCid(c) in WantedIn(Scanned(full.run, indexed, rows, from)))
              <==> KeptFrom(t, full.run, indexed, up, from, RCid(c))
    {
      ResourceFetchedExactly(t, full.run, indexed, up, from, RCid(c));
    }
  }

  /** Under that condition the links are there for the resumed run. */
  lemma KeptLinks(
    full: Job, indexed: map<Cid, seq<Resource>>, t: Tables, up: nat -> bool, rows: seq<seq<Receipt>>, s: TaskScheduler)
    requires Restarts(full, indexed, t, up, rows, s) && Keyed(t) && DistinctTasks(full.run) && OneReceiptEach(t, full.run)
    requires forall c :: LinksTo(full, Skipped(s), c) ==> KeptFrom(t, full.run, indexed, up, From(s), RCid(c))
    ensures LinksKept(full, s)
  {
    var n := Skipped(s);
    assert full.run[n..] == s.run;
    forall b, k, c | NestedAt(JobOf(full, s), b, k, c) && RCid(c) in full.resources ensures RCid(c) in s.resources {
      assert NestedAt(full, n + b, k, c);
      assert LinksTo(full, n, c);
      KeeperFetched(t, full.run, indexed, up, rows, From(s), RCid(c));
    }
  }

  lemma RestartIsPart(
    full: Job, indexed: map<Cid, seq<Resource>>, t: Tables, up: nat -> bool, rows: seq<seq<Receipt>>, s: TaskScheduler)
    requires Restarts(full, indexed, t, up, rows, s) && LinksKept(full, s)
    ensures PartOf(JobOf(full, s), full, Skipped(s))
  {
    assert full.run[Skipped(s)..] == s.run;
  }

  lemma LinkmapSound(
    val: Lookup, t: Tables, schedule: seq<seq<Vertex>>, indexed: map<Cid, seq<Resource>>, up: nat -> bool, s: TaskScheduler)
    requires SoundTables(val, t) && Resumes(t, schedule, indexed, up, s)
    ensures SoundLinkmap(val, s.linkmap)
  {
    forall c | c in s.linkmap ensures val(c) == Some(s.linkmap[c]) {
      var k :| k in t.receipts && t.receipts[k].instruction == c && s.linkmap[c] == OutputAsArg(t.receipts[k]);
      assert SoundReceipt(val, t.receipts[k]);
    }
  }

  lemma PartHashed(u: Universe, full: Job, s: TaskScheduler)
    requires HashedJob(u, full) && PartOf(JobOf(full, s), full, Skipped(s))
    ensures HashedJob(u, JobOf(full, s))
  {
    var part := JobOf(full, s);
    forall v, o | InRun(part, v) && MayReturn(part, v, o) ensures Hashes(u, MakeReceipt(part.world, v, o)) {
      var b, k :| 0 <= b < |part.run| && 0 <= k < |part.run[b]| && part.run[b][k] == v;
      assert full.run[Skipped(s) + b][k] == v;
      assert InRun(full, v) && MayReturn(full, v, o);
    }
  }

  /** Whatever becomes of a restarted worker, the tables it leaves are sound. */
  lemma RestartIsSound(
    u: Universe, full: Job, env: Env, indexed: map<Cid, seq<Resource>>, t: Tables, up: nat -> bool,
    rows: seq<seq<Receipt>>, s: TaskScheduler, evs: seq<Event>)
    requires WellPosed(full, env) && HashedJob(u, full) && Restarts(full, indexed, t, up, rows, s)
    requires SoundTables(Denote(full, env), t) && HashedTables(u, t) && Heard(u, Denote(full, env), evs)
    requires Run(JobOf(full, s), Initial(s.linkmap, t), evs).Some?
    requires Undisturbed(full, s, Run(JobOf(full, s), Initial(s.linkmap, t), evs).value.lost)
    ensures var end := Run(JobOf(full, s), Initial(s.linkmap, t), evs).value;
            && SoundTables(Denote(full, env), end.tables) && HashedTables(u, end.tables)
            && (Succeeded(JobOf(full, s), end) ==> AllStored(s.run, end.tables))
  {
    var part, val := JobOf(full, s), Denote(full, env);
    var sc := Scope(s.linkmap.Keys, Run(part, Initial(s.linkmap, t), evs).value.lost);
    RestartIsPart(full, indexed, t, up, rows, s);
    PartHashed(u, full, s);
    LinkmapSound(val, t, full.run, indexed, up, s);
    PartIsMeaningful(part, full, env, Skipped(s), sc);
    RunIsSound(u, part, val, sc, s.linkmap, t, evs);
  }

  /** The scheduler hands over a linkmap that agrees with the database. */
  lemma ResumesCoherent(
    t: Tables, schedule: seq<seq<Vertex>>, indexed: map<Cid, seq<Resource>>, up: nat -> bool, s: TaskScheduler)
    requires Resumes(t, schedule, indexed, up, s)
    ensures CoherentLinkmap(Initial(s.linkmap, t))
  {
    forall c | c in s.linkmap ensures Backed(Initial(s.linkmap, t), c, s.linkmap[c]) {
      var k :| k in t.receipts && t.receipts[k].instruction == c && s.linkmap[c] == OutputAsArg(t.receipts[k]);
    }
  }

  /** So what is said of where the values of a run come from holds of every run that starts from the scheduler. */
  lemma ResumesGrounded(
    t: Tables, schedule: seq<seq<Vertex>>, indexed: map<Cid, seq<Resource>>, up: nat -> bool, s: TaskScheduler)
    requires Resumes(t, schedule, indexed, up, s)
    ensures Provenance.Grounded(Initial(s.linkmap, t))
  {
    ResumesCoherent(t, schedule, indexed, up, s);
    Provenance.CoherentIsGrounded(Initial(s.linkmap, t));
  }

  lemma SoundOneOutput(val: Lookup, t: Tables)
    requires SoundTables(val, t)
    ensures OneOutputEach(t)
  {
    forall k, k' | k in t.receipts && k' in t.receipts && t.receipts[k].instruction == t.receipts[k'].instruction
      ensures t.receipts[k].out == t.receipts[k'].out
    {
      assert SoundReceipt(val, t.receipts[k]) && SoundReceipt(val, t.receipts[k']);
      assert OutputAsArg(t.receipts[k]) == OutputAsArg(t.receipts[k']);
    }
  }

  /**
   In every run that starts from the scheduler, whenever no receipt is waiting to be committed,
   what the linkmap answers for a CID is what any of its rows in the database answers.
   */
  lemma ResumedResolvesAlike(
    u: Universe, full: Job, env: Env, indexed: map<Cid, seq<Resource>>, t: Tables, up: nat -> bool,
    rows: seq<seq<Receipt>>, s: TaskScheduler, evs: seq<Event>, c: Cid, row: Cid)
    requires WellPosed(full, env) && HashedJob(u, full) && Restarts(full, indexed, t, up, rows, s)
    requires SoundTables(Denote(full, env), t) && HashedTables(u, t) && Heard(u, Denote(full, env), evs)
    requires full.workflow in t.workflows && forall k :: 0 <= k < |evs| ==> CommitsSucceed(evs[k])
    requires Run(JobOf(full, s), Initial(s.linkmap, t), evs).Some?
    requires var end := Run(JobOf(full, s), Initial(s.linkmap, t), evs).value;
             Undisturbed(full, s, end.lost) && end.pending.None? && c in end.linkmap
    ensures var end := Run(JobOf(full, s), Initial(s.linkmap, t), evs).value;
            && HasInstruction(end.tables, c)
            && (IsRow(end.tables, row, c) ==> OutputAsArg(end.tables.receipts[row]) == end.linkmap[c])
  {
    var part := JobOf(full, s);
    RestartIsSound(u, full, env, indexed, t, up, rows, s, evs);
    RestartIsPart(full, indexed, t, up, rows, s);
    PartHashed(u, full, s);
    ResumesCoherent(t, full.run, indexed, up, s);
    Coherence(u, part, Initial(s.linkmap, t), evs);
    var end := Run(part, Initial(s.linkmap, t), evs).value;
    SoundOneOutput(Denote(full, env), end.tables);
    ResolvesAlike(end, c, row);
  }

  /** A successful run of the whole workflow from a database that knows only the outside. */
  ghost predicate FreshRun(u: Universe, full: Job, env: Env, t: Tables, evs: seq<Event>) {
    && OutsideOnly(env, t) && HashedTables(u, t) && Heard(u, Denote(full, env), evs)
    && Run(full, Initial(map[], t), evs).Some? && Succeeded(full, Run(full, Initial(map[], t), evs).value)
  }

  lemma FreshIsSound(u: Universe, full: Job, env: Env, t: Tables, evs: seq<Event>)
    requires WellPosed(full, env) && HashedJob(u, full) && FreshRun(u, full, env, t, evs)
    ensures var first := Run(full, Initial(map[], t), evs).value.tables;
            SoundTables(Denote(full, env), first) && AllStored(full.run, first)
  {
    OutsideSound(full, env, t);
    EvaluationIsMeaning(full, env);
    RunIsSound(u, full, Denote(full, env), Scope({}, false), map[], t, evs);
  }

  /**
   A fresh run and a resumed one, both successful: the resumed one starts from sound receipts
   and from what the scheduler makes of them, and both hear only sound receipts.
   */
  ghost predicate Resumption(
    u: Universe, full: Job, env: Env, t0: Tables, freshEvs: seq<Event>,
    indexed: map<Cid, seq<Resource>>, t: Tables, up: nat -> bool, rows: seq<seq<Receipt>>, s: TaskScheduler, evs: seq<Event>)
  {
    && WellPosed(full, env) && HashedJob(u, full) && FreshRun(u, full, env, t0, freshEvs)
    && SoundTables(Denote(full, env), t) && HashedTables(u, t)
    && Restarts(full, indexed, t, up, rows, s) && Heard(u, Denote(full, env), evs)
    && Run(JobOf(full, s), Initial(s.linkmap, t), evs).Some?
    && Succeeded(JobOf(full, s), Run(JobOf(full, s), Initial(s.linkmap, t), evs).value)
  }

  /**
   Resume refines the fresh run. From any sound receipts in the database, a successful run of
   what the scheduler left to run commits, for every task left, exactly the output the
   fresh run committed: under every interleaving and completion order of either run, and
   whatever sound receipts arrive meanwhile.
   */
  lemma ResumeRefinesFresh(
    u: Universe, full: Job, env: Env, t0: Tables, freshEvs: seq<Event>,
    indexed: map<Cid, seq<Resource>>, t: Tables, up: nat -> bool, rows: seq<seq<Receipt>>, s: TaskScheduler, evs: seq<Event>)
    requires Resumption(u, full, env, t0, freshEvs, indexed, t, up, rows, s, evs) && Undisturbed(full, s, false)
    ensures var first := Run(full, Initial(map[], t0), freshEvs).value.tables;
            var resumed := Run(JobOf(full, s), Initial(s.linkmap, t), evs).value.tables;
            forall b, k :: 0 <= b < |s.run| && 0 <= k < |s.run[b]| && s.run[b][k].op == WASM_OP ==>
              SameOutput(first, resumed, s.run[b][k].cid)
  {
    var val, n := Denote(full, env), Skipped(s);
    var first := Run(full, Initial(map[], t0), freshEvs).value.tables;
    var resumed := Run(JobOf(full, s), Initial(s.linkmap, t), evs).value.tables;
    FreshIsSound(u, full, env, t0, freshEvs);
    RestartIsSound(u, full, env, indexed, t, up, rows, s, evs);
    assert full.run[n..] == s.run;
    AllAgree(val, full.run, s.run, n, first, resumed);
  }

  lemma AllAgree(val: Lookup, schedule: seq<seq<Vertex>>, run: seq<seq<Vertex>>, n: nat, first: Tables, resumed: Tables)
    requires SoundTables(val, first) && SoundTables(val, resumed) && n <= |schedule| && run == schedule[n..]
    requires AllStored(schedule, first) && AllStored(run, resumed)
    ensures forall b, k :: 0 <= b < |run| && 0 <= k < |run[b]| && run[b][k].op == WASM_OP ==>
              SameOutput(first, resumed, run[b][k].cid)
  {
    forall b, k | 0 <= b < |run| && 0 <= k < |run[b]| && run[b][k].op == WASM_OP
      ensures SameOutput(first, resumed, run[b][k].cid)
    {
      assert schedule[n + b][k] == run[b][k];
      SoundOutputsAgree(val, first, resumed, run[b][k].cid);
    }
  }

  // ---------------------------------------------------------------------------
  // Runs that were broken off
  // ---------------------------------------------------------------------------

  /** Receipts of the fresh run's database, or of the outside. */
  ghost predicate SubsetOf(env: Env, t: Tables, first: Tables) {
    forall k :: k in t.receipts ==>
      || (t.receipts[k].instruction in env && env[t.receipts[k].instruction] == OutputAsArg(t.receipts[k]))
      || StoredOutput(first, t.receipts[k].instruction, OutputAsArg(t.receipts[k]))
  }

  /** Sound receipts and receipts of a successful fresh run are the same thing. */
  lemma SoundExactly(full: Job, env: Env, t: Tables, first: Tables)
    requires WellPosed(full, env) && SoundTables(Denote(full, env), first) && AllStored(full.run, first)
    ensures SubsetOf(env, t, first) <==> SoundTables(Denote(full, env), t)
  {
    var val := Denote(full, env);
    forall k | k in t.receipts
      ensures SoundReceipt(val, t.receipts[k]) <==>
              || (t.receipts[k].instruction in env && env[t.receipts[k].instruction] == OutputAsArg(t.receipts[k]))
              || StoredOutput(first, t.receipts[k].instruction, OutputAsArg(t.receipts[k]))
    {
      SoundOne(full, env, t.receipts[k], first);
    }
  }

  lemma SoundOne(full: Job, env: Env, r: Receipt, first: Tables)
    requires WellPosed(full, env) && SoundTables(Denote(full, env), first) && AllStored(full.run, first)
    ensures SoundReceipt(Denote(full, env), r) <==>
            || (r.instruction in env && env[r.instruction] == OutputAsArg(r))
            || StoredOutput(first, r.instruction, OutputAsArg(r))
  {
    var val, c := Denote(full, env), r.instruction;
    if StoredOutput(first, c, OutputAsArg(r)) {
      var k :| k in first.receipts && first.receipts[k].instruction == c && OutputAsArg(first.receipts[k]) == OutputAsArg(r);
      assert SoundReceipt(val, first.receipts[k]);
    }
    if !IsTask(full.run, c) {
      OthersKeep(full, env, c);
    } else if SoundReceipt(val, r) {
      var b: int, k: int :| SitsCid(full.run, b, k, c);
      TaskDenotes(full, env, b, k);
      assert full.run[b][k].op == WASM_OP && HasInstruction(first, full.run[b][k].cid);
      var row :| row in first.receipts && first.receipts[row].instruction == c;
      assert SoundReceipt(val, first.receipts[row]);
    }
  }

  /** One start of the workflow: what `init` found and left, and what happened then. */
  datatype Attempt = Attempt(up: nat -> bool, rows: seq<seq<Receipt>>, s: TaskScheduler, evs: seq<Event>)

  /** The attempt can happen on the tables, however it ends: by an abort, after lost batches, or well. */
  ghost predicate Happens(u: Universe, full: Job, env: Env, indexed: map<Cid, seq<Resource>>, t: Tables, a: Attempt) {
    && Restarts(full, indexed, t, a.up, a.rows, a.s) && Heard(u, Denote(full, env), a.evs)
    && Run(JobOf(full, a.s), Initial(a.s.linkmap, t), a.evs).Some?
    && Undisturbed(full, a.s, Run(JobOf(full, a.s), Initial(a.s.linkmap, t), a.evs).value.lost)
  }

  /** What a sequence of attempts leaves in the database, each starting from what the one before left. */
  ghost function Leaves(full: Job, t: Tables, attempts: seq<Attempt>): Option<Tables> {
    if attempts == [] then Some(t)
    else
      var last := attempts[|attempts| - 1];
      match Leaves(full, t, attempts[..|attempts| - 1])
      case None => None
      case Some(mid) =>
        match Run(JobOf(full, last.s), Initial(last.s.linkmap, mid), last.evs)
        case None => None
        case Some(end) => Some(end.tables)
  }

  ghost predicate AllHappen(
    u: Universe, full: Job, env: Env, indexed: map<Cid, seq<Resource>>, t: Tables, attempts: seq<Attempt>)
  {
    attempts == [] ||
    (var front := attempts[..|attempts| - 1];
     AllHappen(u, full, env, indexed, t, front) && Leaves(full, t, front).Some?
     && Happens(u, full, env, indexed, Leaves(full, t, front).value, attempts[|attempts| - 1]))
  }

  /** However many attempts were broken off, the receipts they left are sound. */
  lemma {:induction false} AttemptsSound(
    u: Universe, full: Job, env: Env, indexed: map<Cid, seq<Resource>>, t: Tables, attempts: seq<Attempt>)
    requires WellPosed(full, env) && HashedJob(u, full) && SoundTables(Denote(full, env), t) && HashedTables(u, t)
    requires AllHappen(u, full, env, indexed, t, attempts)
    ensures Leaves(full, t, attempts).Some?
    ensures SoundTables(Denote(full, env), Leaves(full, t, attempts).value)
    ensures HashedTables(u, Leaves(full, t, attempts).value)
  {
    if attempts != [] {
      var front, last := attempts[..|attempts| - 1], attempts[|attempts| - 1];
      AttemptsSound(u, full, env, indexed, t, front);
      RestartIsSound(u, full, env, indexed, Leaves(full, t, front).value, last.up, last.rows, last.s, last.evs);
    }
  }

  /**
   Crash and resume. After any number of attempts, each ended by an abort, a failure or lost
   batches, the database holds nothing but receipts of the fresh run; and an attempt that
   succeeds then commits, for every task it ran, the output the fresh run committed.
   */
  lemma CrashesRefineFresh(
    u: Universe, full: Job, env: Env, t0: Tables, freshEvs: seq<Event>, indexed: map<Cid, seq<Resource>>,
    attempts: seq<Attempt>, last: Attempt)
    requires WellPosed(full, env) && HashedJob(u, full) && FreshRun(u, full, env, t0, freshEvs)
    requires AllHappen(u, full, env, indexed, t0, attempts) && Leaves(full, t0, attempts).Some?
    requires Happens(u, full, env, indexed, Leaves(full, t0, attempts).value, last)
    requires var t := Leaves(full, t0, attempts).value;
             Succeeded(JobOf(full, last.s), Run(JobOf(full, last.s), Initial(last.s.linkmap, t), last.evs).value)
    ensures var first := Run(full, Initial(map[], t0), freshEvs).value.tables;
            var t := Leaves(full, t0, attempts).value;
            var resumed := Run(JobOf(full, last.s), Initial(last.s.linkmap, t), last.evs).value.tables;
            && SubsetOf(env, t, first)
            && forall b, k :: 0 <= b < |last.s.run| && 0 <= k < |last.s.run[b]| && last.s.run[b][k].op == WASM_OP ==>
                 SameOutput(first, resumed, last.s.run[b][k].cid)
  {
    var t := Leaves(full, t0, attempts).value;
    OutsideSound(full, env, t0);
    AttemptsSound(u, full, env, indexed, t0, attempts);
    FreshIsSound(u, full, env, t0, freshEvs);
    SoundExactly(full, env, t, Run(full, Initial(map[], t0), freshEvs).value.tables);
    ResumeRefinesFresh(u, full, env, t0, freshEvs, indexed, t, last.up, last.rows, last.s, last.evs);
  }
}
