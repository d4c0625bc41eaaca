/**
 From a compiled workflow to one whose runs have a meaning: what compilation guarantees,
 and what is left to ask of links inside arguments.
 */
module Posed {
  import opened IpldModel
  import opened Inputs
  import opened Workflows
  import opened Schedules
  import opened Scheduler
  import opened Fetching
  import opened Worker
  import opened WorkerSafety
  import opened Meaning

  /** Maps in the inputs of the tasks are keyed in order, as a BTreeMap is. */
  ghost predicate WellFormedTasks(tasks: seq<Task>) {
    forall i :: 0 <= i < |tasks| && tasks[i].run.Expanded? && tasks[i].run.instruction.input.InIpld? ==>
      WellFormed(tasks[i].run.instruction.input.ipld)
  }

  lemma ExpandedArgs(t: Task, v: Vertex, k: nat)
    requires Carries(t, v) && k < |v.args| && v.args[k].InIpld?
    requires t.run.instruction.input.InIpld? ==> WellFormed(t.run.instruction.input.ipld)
    ensures Substituted(v.args[k]) && WellFormed(v.args[k].ipld)
  {
    var es := t.run.instruction.input.ipld.entries;
    var items :| ArgumentList(t.run.instruction.input, items) && AllStandFor(items, v.args);
    var j :| 0 <= j < |es| && es[j] == Entry("args", List(items));
    assert WellFormed(es[j].value) && WellFormed(items[k]);
    ParsedExactly(items[k], v.args[k]);
  }

  /**
   A schedule that respects promises makes a workflow well posed, whatever its tasks are, as soon
   as links inside arguments settle and CIDs of tasks name nothing else.
   */
  lemma CompiledIsWellPosed(tasks: seq<Task>, vs: seq<Vertex>, job: Job, env: Env)
    requires WellFormedTasks(tasks) && Expands(tasks, vs) && Ordered(vs, job.run)
    requires forall c :: IsTask(job.run, c) ==> c !in env
    requires forall c :: RCid(c) in job.resources ==> c in env && env[c] == ResOk(ArgIpld(Bytes(job.resources[RCid(c)])))
    requires forall b, k, c :: NestedAt(job, b, k, c) ==> NestedSettles(job, env, b, c)
    ensures WellPosed(job, env)
  {
    forall b, k, b', k', c | SitsCid(job.run, b, k, c) && SitsCid(job.run, b', k', c) ensures b == b' && k == k' {
      assert Sits(job.run, b, k, job.run[b][k]) && Sits(job.run, b', k', job.run[b'][k']);
    }
    forall b, k | 0 <= b < |job.run| && 0 <= k < |job.run[b]| ensures WellPosedTask(job, env, b, job.run[b][k]) {
      var v := job.run[b][k];
      assert Sits(job.run, b, k, v);
      forall j | 0 <= j < |v.args|
        ensures PromiseOf(v.args[j]).Some? ==>
                  forall b', k' :: SitsCid(job.run, b', k', PromiseOf(v.args[j]).value) ==> b' < b
        ensures Substituted(v.args[j]) ==> WellFormed(v.args[j].ipld)
      {
        ArgumentPosed(tasks, vs, job, b, k, j);
      }
      forall c | Nested(v, c) ensures NestedSettles(job, env, b, c) { assert NestedAt(job, b, k, c); }
    }
  }

  lemma ArgumentPosed(tasks: seq<Task>, vs: seq<Vertex>, job: Job, b: nat, k: nat, j: nat)
    requires WellFormedTasks(tasks) && Expands(tasks, vs) && Ordered(vs, job.run)
    requires b < |job.run| && k < |job.run[b]| && j < |job.run[b][k].args|
    ensures var a := job.run[b][k].args[j];
            && (Substituted(a) ==> WellFormed(a.ipld))
            && (PromiseOf(a).Some? ==> forall b', k' :: SitsCid(job.run, b', k', PromiseOf(a).value) ==> b' < b)
  {
    var v := job.run[b][k];
    assert Sits(job.run, b, k, v);
    assert v in vs;
    var i :| 0 <= i < |vs| && vs[i] == v;
    if v.args[j].InIpld? { ExpandedArgs(tasks[i], v, j); }
    if PromiseOf(v.args[j]).Some? {
      var c := PromiseOf(v.args[j]).value;
      DeferredsAre(v.args, c);
      forall b', k' | SitsCid(job.run, b', k', c) ensures b' < b { assert Sits(job.run, b', k', job.run[b'][k']); }
    }
  }

  /** The node holds a task of the workflow, and this is its instruction. */
  ghost predicate HoldsTask(tasks: seq<Task>, v: Vertex, it: Instruction) {
    exists i :: 0 <= i < |tasks| && Carries(tasks[i], v) && tasks[i].run.instruction == it
  }

  lemma EachHoldsTask(tasks: seq<Task>, vs: seq<Vertex>, schedule: seq<seq<Vertex>>, b: nat, k: nat)
    requires Expands(tasks, vs) && Ordered(vs, schedule) && b < |schedule| && k < |schedule[b]|
    ensures exists it :: HoldsTask(tasks, schedule[b][k], it)
  {
    assert Sits(schedule, b, k, schedule[b][k]);
    assert schedule[b][k] in vs;
    var i :| 0 <= i < |vs| && vs[i] == schedule[b][k];
    assert HoldsTask(tasks, schedule[b][k], tasks[i].run.instruction);
  }

  /**
   Starting a batch of a compiled workflow, told by the instructions it was compiled from: it runs
   exactly those that are a "wasm/run", each with the module of its url and no lookup made, and
   fails exactly when one of these modules was not fetched.
   */
  lemma StartsItsTasks(tasks: seq<Task>, vs: seq<Vertex>, job: Job, st: State)
    requires Expands(tasks, vs) && Ordered(vs, job.run) && Start(job, st).Some?
    ensures var st', batch := Start(job, st).value, job.run[st.started];
            && (st'.open <==> forall k, it :: 0 <= k < |batch| && HoldsTask(tasks, batch[k], it) && it.op == "wasm/run" ==>
                  RUrl(it.url) in job.resources)
            && (!st'.open ==> st' == st.(status := Failed))
            && (st'.open ==> st' == st.(running := st'.running, started := st.started + 1, open := true))
            && (st'.open ==> forall k :: k in st'.running ==> k < |batch|)
            && (st'.open ==> forall k: nat, it :: k < |batch| && HoldsTask(tasks, batch[k], it) ==>
                  && (k in st'.running <==> it.op == "wasm/run")
                  && (k in st'.running ==>
                        && RUrl(it.url) in job.resources
                        && st'.running[k] == Running(batch[k], job.resources[RUrl(it.url)], map[])))
  {
    var batch := job.run[st.started];
    forall k | 0 <= k < |batch| ensures exists it :: HoldsTask(tasks, batch[k], it) {
      EachHoldsTask(tasks, vs, job.run, st.started, k);
    }
  }

  /** The index compilation makes is the one resuming works with. */
  lemma IndexedIsCompiled(vs: seq<Vertex>, schedule: seq<seq<Vertex>>, indexed: map<Cid, seq<Resource>>)
    requires DistinctCids(vs) && Ordered(vs, schedule) && Indexed(vs, indexed)
    ensures Compiled(schedule, indexed)
  {
    forall b, k | 0 <= b < |schedule| && 0 <= k < |schedule[b]|
      ensures schedule[b][k].cid in indexed && indexed[schedule[b][k].cid] == ResourcesOf(schedule[b][k])
    {
      assert Sits(schedule, b, k, schedule[b][k]);
      assert schedule[b][k] in vs;
      var i :| 0 <= i < |vs| && vs[i] == schedule[b][k];
    }
  }
}
