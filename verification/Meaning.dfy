/**
 The value of every instruction of a workflow, defined by evaluating the batches in
 order, and the proof that it is the meaning all runs agree with.
 */
module Meaning {
  import opened Wrappers
  import opened IpldModel
  import opened Inputs
  import opened Workflows
  import opened Scheduler
  import opened Worker
  import opened WorkerSafety

  type Env = map<Cid, InstructionResult<Arg>>

  function AsLookup(env: Env): Lookup {
    (c: Cid) => if c in env then Some(env[c]) else None
  }

  /** The task has a handler and a module, and returns a value from the values in `base`. */
  ghost predicate Returns(job: Job, base: Env, v: Vertex) {
    v.op == WASM_OP && RUrl(v.url) in job.resources && ValueOf(job, AsLookup(base), v).Some?
  }

  ghost function Result(job: Job, base: Env, v: Vertex): InstructionResult<Arg>
    requires Returns(job, base, v)
  {
    ResOk(ArgIpld(ValueOf(job, AsLookup(base), v).value))
  }

  /** The tasks of a batch all start from the values known before it. */
  ghost function EvalBatch(job: Job, base: Env, batch: seq<Vertex>): Env {
    if batch == [] then base
    else
      var env, v := EvalBatch(job, base, batch[..|batch| - 1]), batch[|batch| - 1];
      if Returns(job, base, v) then env[v.cid := Result(job, base, v)] else env
  }

  ghost function Eval(job: Job, env: Env, n: nat): Env
    requires n <= |job.run|
  {
    if n == 0 then env else EvalBatch(job, Eval(job, env, n - 1), job.run[n - 1])
  }

  ghost function Denote(job: Job, env: Env): Lookup {
    AsLookup(Eval(job, env, |job.run|))
  }

  ghost predicate IsTask(run: seq<seq<Vertex>>, c: Cid) {
    exists b, k :: SitsCid(run, b, k, c)
  }

  /** The argument is substituted, and a link to the CID occurs in it. */
  ghost predicate Nested(v: Vertex, c: Cid) {
    exists k :: 0 <= k < |v.args| && Substituted(v.args[k]) && Mentions(v.args[k].ipld, c)
  }

  /**
   The workflow has one meaning. CIDs of tasks are distinct and name nothing else;
   a task awaits only tasks of earlier batches; and a link inside an argument is a fetched
   resource, leads to a task of an earlier batch, or resolves to nothing.
   */
  ghost predicate WellPosed(job: Job, env: Env) {
    && DistinctTasks(job.run)
    && (forall c :: IsTask(job.run, c) ==> c !in env)
    && (forall c :: RCid(c) in job.resources ==> c in env && env[c] == ResOk(ArgIpld(Bytes(job.resources[RCid(c)]))))
    && (forall b, k :: 0 <= b < |job.run| && 0 <= k < |job.run[b]| ==> WellPosedTask(job, env, b, job.run[b][k]))
  }

  ghost predicate WellPosedTask(job: Job, env: Env, b: int, v: Vertex) {
    && (forall k :: 0 <= k < |v.args| ==>
          && (PromiseOf(v.args[k]).Some? ==> forall b', k' :: SitsCid(job.run, b', k', PromiseOf(v.args[k]).value) ==> b' < b)
          && (Substituted(v.args[k]) ==> WellFormed(v.args[k].ipld)))
    && (forall c :: Nested(v, c) ==> NestedSettles(job, env, b, c))
  }

  ghost predicate NestedSettles(job: Job, env: Env, b: int, c: Cid) {
    || (c !in env && !IsTask(job.run, c))
    || RCid(c) in job.resources
    || (exists b', k' :: b' < b && SitsCid(job.run, b', k', c))
  }

  // ---------------------------------------------------------------------------
  // What evaluation leaves alone
  // ---------------------------------------------------------------------------

  lemma {:induction false} EvalBatchOther(job: Job, base: Env, batch: seq<Vertex>, c: Cid)
    requires forall k :: 0 <= k < |batch| ==> batch[k].cid != c
    ensures AsLookup(EvalBatch(job, base, batch))(c) == AsLookup(base)(c)
  {
    if batch != [] {
      EvalBatchOther(job, base, batch[..|batch| - 1], c);
    }
  }

  lemma {:induction false} EvalBatchAt(job: Job, base: Env, batch: seq<Vertex>, k: nat)
    requires k < |batch| && batch[k].cid !in base
    requires forall i, j :: 0 <= i < j < |batch| ==> batch[i].cid != batch[j].cid
    ensures AsLookup(EvalBatch(job, base, batch))(batch[k].cid) ==
            if Returns(job, base, batch[k]) then Some(Result(job, base, batch[k])) else None
  {
    var front := batch[..|batch| - 1];
    if k == |batch| - 1 {
      EvalBatchOther(job, base, front, batch[k].cid);
    } else {
      EvalBatchAt(job, base, front, k);
      assert batch[k].cid != batch[|batch| - 1].cid;
    }
  }

  /** A value does not change after the batches that could set it. */
  lemma {:induction false} EvalSkips(job: Job, env: Env, m: nat, n: nat, c: Cid)
    requires m <= n <= |job.run|
    requires forall b, k :: m <= b < n ==> !SitsCid(job.run, b, k, c)
    ensures AsLookup(Eval(job, env, n))(c) == AsLookup(Eval(job, env, m))(c)
    decreases n
  {
    if m < n {
      EvalSkips(job, env, m, n - 1, c);
      var batch := job.run[n - 1];
      forall k | 0 <= k < |batch| ensures batch[k].cid != c { assert SitsCid(job.run, n - 1, k, batch[k].cid); }
      EvalBatchOther(job, Eval(job, env, n - 1), batch, c);
    }
  }

  // ---------------------------------------------------------------------------
  // Arguments depend only on what they mention
  // ---------------------------------------------------------------------------

  lemma {:induction false} SubstCongruent(c: Wit.Codec, i: Ipld, f: Lookup, g: Lookup, wrap: bool)
    requires forall id :: Mentions(i, id) ==> f(id) == g(id)
    ensures Subst(c, i, f, wrap) == Subst(c, i, g, wrap)
    decreases i
  {
    match i
    case List(items) =>
      forall k | 0 <= k < |items| ensures Subst(c, items[k], f, false) == Subst(c, items[k], g, false) {
        assert forall id :: Mentions(items[k], id) ==> Mentions(i, id);
        SubstCongruent(c, items[k], f, g, false);
      }
      assert Subst(c, i, f, wrap).items == Subst(c, i, g, wrap).items;
    case Map(es) =>
      forall k | 0 <= k < |es|
        ensures Subst(c, es[k].value, f, es[k].key == PTR_BRANCH) == Subst(c, es[k].value, g, es[k].key == PTR_BRANCH)
      {
        assert forall id :: Mentions(es[k].value, id) ==> Mentions(i, id);
        SubstCongruent(c, es[k].value, f, g, es[k].key == PTR_BRANCH);
      }
      assert Subst(c, i, f, wrap).entries == Subst(c, i, g, wrap).entries;
    case Link(id) => assert Mentions(i, id);
    case _ =>
  }

  /** The lookups agree on every CID the argument looks up. */
  ghost predicate AgreeOn(input: Input, f: Lookup, g: Lookup) {
    && (PromiseOf(input).Some? ==> f(PromiseOf(input).value) == g(PromiseOf(input).value))
    && (Substituted(input) ==> WellFormed(input.ipld) && forall c :: Mentions(input.ipld, c) ==> f(c) == g(c))
  }

  lemma ResolveArgsCongruent(c: Wit.Codec, args: seq<Input>, f: Lookup, g: Lookup)
    requires forall k :: 0 <= k < |args| ==> AgreeOn(args[k], f, g)
    ensures ResolveArgs(c, args, f) == ResolveArgs(c, args, g)
  {
    forall k | 0 <= k < |args| ensures ResolveInput(c, args[k], f) == ResolveInput(c, args[k], g) {
      assert AgreeOn(args[k], f, g);
      if Substituted(args[k]) {
        ResolveLinksIsSubst(c, args[k].ipld, f);
        ResolveLinksIsSubst(c, args[k].ipld, g);
        SubstCongruent(c, args[k].ipld, f, g, false);
      }
    }
  }

  // ---------------------------------------------------------------------------
  // Evaluation is the meaning
  // ---------------------------------------------------------------------------

  /** A task sees the same values before its batch as after the last one. */
  lemma ArgsSettle(job: Job, env: Env, b: nat, k: nat, j: nat)
    requires WellPosed(job, env) && b < |job.run| && k < |job.run[b]| && j < |job.run[b][k].args|
    ensures AgreeOn(job.run[b][k].args[j], AsLookup(Eval(job, env, b)), Denote(job, env))
  {
    var input := job.run[b][k].args[j];
    assert WellPosedTask(job, env, b, job.run[b][k]);
    if PromiseOf(input).Some? {
      EvalSkips(job, env, b, |job.run|, PromiseOf(input).value);
    }
    if Substituted(input) {
      forall c | Mentions(input.ipld, c) ensures AsLookup(Eval(job, env, b))(c) == Denote(job, env)(c) {
        assert Nested(job.run[b][k], c);
        NestedKeeps(job, env, b, k, c);
      }
    }
  }

  lemma NestedKeeps(job: Job, env: Env, b: nat, k: nat, c: Cid)
    requires WellPosed(job, env) && b < |job.run| && k < |job.run[b]| && Nested(job.run[b][k], c)
    ensures AsLookup(Eval(job, env, b))(c) == Denote(job, env)(c)
  {
    assert NestedSettles(job, env, b, c);
    forall b', k' | b <= b' < |job.run| ensures !SitsCid(job.run, b', k', c) {
      assert SitsCid(job.run, b', k', c) ==> IsTask(job.run, c);
    }
    EvalSkips(job, env, b, |job.run|, c);
  }

  /** What an instruction of the workflow denotes: its value before its batch, or nothing. */
  lemma TaskDenotes(job: Job, env: Env, b: nat, k: nat)
    requires DistinctTasks(job.run) && b < |job.run| && k < |job.run[b]| && job.run[b][k].cid !in env
    ensures Denote(job, env)(job.run[b][k].cid) ==
            if Returns(job, Eval(job, env, b), job.run[b][k]) then Some(Result(job, Eval(job, env, b), job.run[b][k]))
            else None
  {
    var v, batch := job.run[b][k], job.run[b];
    assert SitsCid(job.run, b, k, v.cid);
    EvalSkips(job, env, 0, b, v.cid);
    forall i, j | 0 <= i < j < |batch| ensures batch[i].cid != batch[j].cid {
      assert SitsCid(job.run, b, i, batch[i].cid) && SitsCid(job.run, b, j, batch[j].cid);
    }
    EvalBatchAt(job, Eval(job, env, b), batch, k);
    EvalSkips(job, env, b + 1, |job.run|, v.cid);
  }

  lemma TaskMeans(job: Job, env: Env, b: nat, k: nat)
    requires WellPosed(job, env) && b < |job.run| && k < |job.run[b]|
    ensures Meant(job, Denote(job, env), job.run[b][k])
  {
    var v, base := job.run[b][k], Eval(job, env, b);
    assert SitsCid(job.run, b, k, v.cid);
    forall j | 0 <= j < |v.args| ensures AgreeOn(v.args[j], AsLookup(base), Denote(job, env)) {
      ArgsSettle(job, env, b, k, j);
    }
    ResolveArgsCongruent(job.world.codec, v.args, AsLookup(base), Denote(job, env));
    TaskDenotes(job, env, b, k);
  }

  /** A CID that is no task keeps the meaning it had. */
  lemma OthersKeep(job: Job, env: Env, c: Cid)
    requires !IsTask(job.run, c)
    ensures Denote(job, env)(c) == AsLookup(env)(c)
  {
    EvalSkips(job, env, 0, |job.run|, c);
  }

  /**
   The batches of a job from number `n` on, with resources of the same content that
   include those the arguments of these tasks link to.
   */
  ghost predicate PartOf(part: Job, full: Job, n: nat) {
    && part.world == full.world && n <= |full.run| && part.run == full.run[n..]
    && (forall r :: r in part.resources ==> r in full.resources && part.resources[r] == full.resources[r])
    && (forall b, k, c :: NestedAt(part, b, k, c) && RCid(c) in full.resources ==> RCid(c) in part.resources)
  }

  /** Links inside arguments that lead to earlier tasks lead to tasks that are linked by then. */
  ghost predicate Reaches(full: Job, n: nat, sc: Scope) {
    forall b, k, c, b', k' ::
      n <= b && NestedAt(full, b, k, c) && RunsAt(full, b', k', c) && b' < b ==>
        c in sc.known || (!sc.lossy && n <= b')
  }

  ghost predicate NestedAt(job: Job, b: int, k: int, c: Cid) {
    0 <= b < |job.run| && 0 <= k < |job.run[b]| && Nested(job.run[b][k], c)
  }

  lemma PartSettles(part: Job, full: Job, env: Env, n: nat, sc: Scope, b: nat, k: nat, c: Cid)
    requires WellPosed(full, env) && PartOf(part, full, n) && Reaches(full, n, sc)
    requires b < |part.run| && k < |part.run[b]| && Nested(part.run[b][k], c)
    ensures Denote(full, env)(c).None? || RCid(c) in part.resources || Certain(part, sc, b, c)
  {
    var v := part.run[b][k];
    assert v == full.run[n + b][k] && NestedAt(full, n + b, k, c) && WellPosedTask(full, env, n + b, v);
    assert NestedSettles(full, env, n + b, c);
    if c !in env && !IsTask(full.run, c) {
      OthersKeep(full, env, c);
    } else if RCid(c) in full.resources {
      assert NestedAt(part, b, k, c);
    } else {
      var b': int, k': int :| b' < n + b && SitsCid(full.run, b', k', c);
      if full.run[b'][k'].op == WASM_OP {
        assert RunsAt(full, b', k', c);
        if c !in sc.known { assert RunsAt(part, b' - n, k', c); }
      } else {
        assert IsTask(full.run, c);
        TaskDenotes(full, env, b', k');
      }
    }
  }

  /** The meaning of a well-posed workflow is one for every part of it that reaches what it needs. */
  lemma PartIsMeaningful(part: Job, full: Job, env: Env, n: nat, sc: Scope)
    requires WellPosed(full, env) && PartOf(part, full, n) && Reaches(full, n, sc)
    ensures Meaningful(part, Denote(full, env), sc)
  {
    var val := Denote(full, env);
    forall c | RCid(c) in part.resources
      ensures val(c) == Some(ResOk(ArgIpld(Bytes(part.resources[RCid(c)]))))
    {
      OthersKeep(full, env, c);
    }
    forall b, k | 0 <= b < |part.run| && 0 <= k < |part.run[b]|
      ensures Settled(part, val, sc, b, part.run[b][k]) && Meant(part, val, part.run[b][k])
    {
      var v := part.run[b][k];
      assert v == full.run[n + b][k];
      TaskMeans(full, env, n + b, k);
      assert WellPosedTask(full, env, n + b, v);
      forall j, c | 0 <= j < |v.args| && Substituted(v.args[j]) && Mentions(v.args[j].ipld, c)
        ensures val(c).None? || RCid(c) in part.resources || Certain(part, sc, b, c)
      {
        assert Nested(v, c);
        PartSettles(part, full, env, n, sc, b, k, c);
      }
    }
  }

  /** Evaluating the batches in order gives every CID of a well-posed workflow its meaning. */
  lemma EvaluationIsMeaning(job: Job, env: Env)
    requires WellPosed(job, env)
    ensures Meaningful(job, Denote(job, env), Scope({}, false))
  {
    assert job.run[0..] == job.run;
    PartIsMeaningful(job, job, env, 0, Scope({}, false));
  }
}
