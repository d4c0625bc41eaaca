/**
 Batching a DAG. The contract of the scheduling library is `Legal`; a layering
 method meets it, and finds a schedule whenever there is one.
 */
module Schedules {
  import opened Wrappers
  import opened IpldModel
  import opened Workflows

  datatype ExecutionGraph = ExecutionGraph(schedule: seq<seq<Vertex>>, resources: map<Cid, seq<Resource>>)

  /** `n` is the node at position `k` of batch `b`. */
  ghost predicate At(batches: seq<seq<Node>>, b: int, k: int, n: Node) {
    0 <= b < |batches| && 0 <= k < |batches[b]| && batches[b][k] == n
  }

  ghost predicate Placed(batches: seq<seq<Node>>, n: Node) {
    exists b, k :: At(batches, b, k, n)
  }

  /** Each node placed once, what it reads strictly earlier, lower barriers strictly first. */
  ghost predicate Legal(dag: seq<Node>, batches: seq<seq<Node>>) {
    && (forall n :: n in dag <==> Placed(batches, n))
    && (forall b, k, n, b', k', n' :: At(batches, b, k, n) && At(batches, b', k', n') && n.result == n'.result ==>
          b == b' && k == k')
    && (forall b, k, n, r :: At(batches, b, k, n) && r in n.needs ==>
          exists b', k', m :: b' < b && At(batches, b', k', m) && m.result == r)
    && (forall b, k, n, b', k', m :: At(batches, b, k, n) && At(batches, b', k', m) && m.barrier < n.barrier ==> b' < b)
  }

  predicate Ready(n: Node, rest: seq<Node>, placed: set<nat>) {
    && (forall k :: 0 <= k < |n.needs| ==> n.needs[k] in placed)
    && (forall k :: 0 <= k < |rest| ==> n.barrier <= rest[k].barrier)
  }

  /** The nodes that can run next, and the others, in order. */
  method Split(rest: seq<Node>, placed: set<nat>) returns (ready: seq<Node>, later: seq<Node>)
    ensures forall n :: n in ready <==> n in rest && Ready(n, rest, placed)
    ensures forall n :: n in later <==> n in rest && !Ready(n, rest, placed)
    ensures Distinct(rest) ==> Distinct(ready) && Distinct(later)
    ensures |ready| + |later| == |rest|
  {
    ready, later := [], [];
    for k := 0 to |rest|
      invariant forall n :: n in ready <==> n in rest[..k] && Ready(n, rest, placed)
      invariant forall n :: n in later <==> n in rest[..k] && !Ready(n, rest, placed)
      invariant Distinct(rest) ==> Distinct(ready) && Distinct(later)
      invariant |ready| + |later| == k
    {
      assert rest[..k + 1] == rest[..k] + [rest[k]];
      if Distinct(rest) {
        forall n | n in rest[..k] ensures n.result != rest[k].result { }
      }
      if Ready(rest[k], rest, placed) { ready := ready + [rest[k]]; } else { later := later + [rest[k]]; }
    }
    assert rest[..|rest|] == rest;
  }

  /** What holds of the batches laid so far, the results they produced and the nodes still to place. */
  ghost predicate Layered(dag: seq<Node>, batches: seq<seq<Node>>, placed: set<nat>, rest: seq<Node>) {
    && Distinct(rest)
    && (forall n :: n in dag <==> n in rest || Placed(batches, n))
    && (forall r :: r in placed <==> exists b, k, n :: At(batches, b, k, n) && n.result == r)
    && (forall n :: n in rest ==> n.result !in placed)
    && (forall b, k, n, b', k', n' :: At(batches, b, k, n) && At(batches, b', k', n') && n.result == n'.result ==>
          b == b' && k == k')
    && (forall b, k, n, r :: At(batches, b, k, n) && r in n.needs ==>
          exists b', k', m :: b' < b && At(batches, b', k', m) && m.result == r)
    && (forall b, k, n, b', k', m :: At(batches, b, k, n) && At(batches, b', k', m) && m.barrier < n.barrier ==> b' < b)
    && (forall b, k, n, m :: At(batches, b, k, n) && m in rest ==> n.barrier <= m.barrier)
  }

  function Results(ns: seq<Node>): set<nat> {
    set k | 0 <= k < |ns| :: ns[k].result
  }

  /** `Dag::build_schedule`: a schedule, or proof that the DAG has none. */
  method BuildSchedule(dag: seq<Node>) returns (r: Option<seq<seq<Node>>>)
    requires Distinct(dag)
    ensures r.Some? ==> Legal(dag, r.value) && forall b :: 0 <= b < |r.value| ==> r.value[b] != []
    ensures r.None? ==> !Schedulable(dag)
  {
    var batches, placed, rest := [], {}, dag;
    while rest != []
      invariant Layered(dag, batches, placed, rest)
      invariant forall b :: 0 <= b < |batches| ==> batches[b] != []
      decreases |rest|
    {
      var ready, later := Split(rest, placed);
      if ready == [] {
        forall bs ensures !Legal(dag, bs) {
          if Legal(dag, bs) { Stuck(dag, batches, placed, rest, bs); }
        }
        return None;
      }
      LayerStep(dag, batches, placed, rest, ready, later);
      batches, placed, rest := batches + [ready], placed + Results(ready), later;
    }
    r := Some(batches);
  }

  lemma AtAppend(batches: seq<seq<Node>>, ready: seq<Node>)
    ensures forall b, k, n :: At(batches + [ready], b, k, n) <==>
              At(batches, b, k, n) || (b == |batches| && 0 <= k < |ready| && ready[k] == n)
  {
  }

  lemma LayerStep(
    dag: seq<Node>, batches: seq<seq<Node>>, placed: set<nat>, rest: seq<Node>, ready: seq<Node>, later: seq<Node>)
    requires Layered(dag, batches, placed, rest)
    requires forall n :: n in ready <==> n in rest && Ready(n, rest, placed)
    requires forall n :: n in later <==> n in rest && !Ready(n, rest, placed)
    requires Distinct(ready) && Distinct(later)
    ensures Layered(dag, batches + [ready], placed + Results(ready), later)
  {
    var bs := batches + [ready];
    AtAppend(batches, ready);
    forall n ensures n in dag <==> n in later || Placed(bs, n) {
      if n in dag && n !in later {
        if n in rest {
          var k :| 0 <= k < |ready| && ready[k] == n;
          assert At(bs, |batches|, k, n);
        } else {
          var b, k :| At(batches, b, k, n);
          assert At(bs, b, k, n);
        }
      }
    }
    forall r ensures r in placed + Results(ready) <==> exists b, k, n :: At(bs, b, k, n) && n.result == r {
      if r in placed {
        var b, k, n :| At(batches, b, k, n) && n.result == r;
        assert At(bs, b, k, n);
      } else if r in Results(ready) {
        var k :| 0 <= k < |ready| && ready[k].result == r;
        assert At(bs, |batches|, k, ready[k]);
      }
      if b, k, n :| At(bs, b, k, n) && n.result == r {
        if b < |batches| { assert At(batches, b, k, n); }
      }
    }
    forall n | n in later ensures n.result !in Results(ready) {
      DistinctResults(rest, ready, n);
    }
    forall b, k, n, b', k', n' | At(bs, b, k, n) && At(bs, b', k', n') && n.result == n'.result
      ensures b == b' && k == k'
    {
      assert b < |batches| ==> n.result in placed;
      assert b' < |batches| ==> n'.result in placed;
      assert b == |batches| ==> n in ready;
      assert b' == |batches| ==> n' in ready;
    }
    forall b, k, n, r | At(bs, b, k, n) && r in n.needs
      ensures exists b', k', m :: b' < b && At(bs, b', k', m) && m.result == r
    {
      if b < |batches| {
        var b', k', m :| b' < b && At(batches, b', k', m) && m.result == r;
        assert At(bs, b', k', m);
      } else {
        var j :| 0 <= j < |n.needs| && n.needs[j] == r;
        assert n in ready && r in placed;
        var b', k', m :| At(batches, b', k', m) && m.result == r;
        assert At(bs, b', k', m);
      }
    }
    forall b, k, n, b', k', m | At(bs, b, k, n) && At(bs, b', k', m) && m.barrier < n.barrier ensures b' < b {
      assert b == |batches| ==> n in ready;
      assert b' == |batches| ==> m in ready;
      assert n in ready && m in ready ==> n.barrier <= m.barrier;
    }
    forall b, k, n, m | At(bs, b, k, n) && m in later ensures n.barrier <= m.barrier {
      if b == |batches| { assert n in ready && m in rest; }
    }
  }

  lemma DistinctResults(rest: seq<Node>, ready: seq<Node>, n: Node)
    requires Distinct(rest) && n in rest && n !in ready && forall m :: m in ready ==> m in rest
    ensures n.result !in Results(ready)
  {
    var j :| 0 <= j < |rest| && rest[j] == n;
    forall k | 0 <= k < |ready| ensures ready[k].result != n.result {
      assert ready[k] in rest;
      var i :| 0 <= i < |rest| && rest[i] == ready[k];
      assert i != j;
    }
  }

  /** When no node is ready, the nodes left wait for one another. */
  lemma Stuck(dag: seq<Node>, batches: seq<seq<Node>>, placed: set<nat>, rest: seq<Node>, bs: seq<seq<Node>>)
    requires Layered(dag, batches, placed, rest) && Legal(dag, bs)
    requires rest != [] && forall n :: n in rest ==> !Ready(n, rest, placed)
    ensures false
  {
    assert rest[0] in dag;
    var b, k :| At(bs, b, k, rest[0]);
    NoneBefore(dag, batches, placed, rest, bs, b, k, rest[0]);
  }

  lemma {:induction false} NoneBefore(
      dag: seq<Node>, batches: seq<seq<Node>>, placed: set<nat>, rest: seq<Node>, bs: seq<seq<Node>>,
      b: int, k: int, n: Node)
    requires Layered(dag, batches, placed, rest) && Legal(dag, bs)
    requires forall n :: n in rest ==> !Ready(n, rest, placed)
    requires n in rest && At(bs, b, k, n)
    ensures false
    decreases b
  {
    if j :| 0 <= j < |n.needs| && n.needs[j] !in placed {
      var r := n.needs[j];
      assert r in n.needs;
      var b', k', m :| b' < b && At(bs, b', k', m) && m.result == r;
      assert m in dag;
      NoneBefore(dag, batches, placed, rest, bs, b', k', m);
    } else {
      var j :| 0 <= j < |rest| && rest[j].barrier < n.barrier;
      var m := rest[j];
      assert m in dag;
      var b', k' :| At(bs, b', k', m);
      assert b' < b;
      NoneBefore(dag, batches, placed, rest, bs, b', k', m);
    }
  }

  // ---------------------------------------------------------------------------
  // From tasks to batches
  // ---------------------------------------------------------------------------

  function Vertices(batches: seq<seq<Node>>): seq<seq<Vertex>> {
    seq(|batches|, b requires 0 <= b < |batches| =>
      seq(|batches[b]|, k requires 0 <= k < |batches[b]| => batches[b][k].vertex))
  }

  /** The vertex at position `k` of batch `b`. */
  ghost predicate Sits(schedule: seq<seq<Vertex>>, b: int, k: int, v: Vertex) {
    0 <= b < |schedule| && 0 <= k < |schedule[b]| && schedule[b][k] == v
  }

  /** A schedule that respects every promise a task awaits as an argument of its own. */
  ghost predicate Ordered(vs: seq<Vertex>, schedule: seq<seq<Vertex>>) {
    && (forall v :: v in vs <==> exists b, k :: Sits(schedule, b, k, v))
    && (forall b, k, v, b', k', v' :: Sits(schedule, b, k, v) && Sits(schedule, b', k', v') && v.cid == v'.cid ==>
          b == b' && k == k')
    && (forall b, k, v, b', k', w ::
          Sits(schedule, b, k, v) && Sits(schedule, b', k', w) && w.cid in Deferreds(v.args) ==> b' < b)
  }

  /** Neither awaits a task of the workflow nor is awaited by one. */
  ghost predicate Alone(vs: seq<Vertex>, v: Vertex) {
    forall w :: w in vs ==> w.cid !in Deferreds(v.args) && v.cid !in Deferreds(w.args)
  }

  ghost predicate AloneLast(vs: seq<Vertex>, schedule: seq<seq<Vertex>>) {
    forall b, k, v, b', k', w ::
      Sits(schedule, b, k, v) && Sits(schedule, b', k', w) && Alone(vs, v) && !Alone(vs, w) ==> b' < b
  }

  lemma NodeAt(vs: seq<Vertex>, dag: seq<Node>, batches: seq<seq<Node>>, b: nat, k: nat)
    requires DistinctCids(vs) && IsDag(vs, dag) && Legal(dag, batches)
    requires b < |batches| && k < |batches[b]|
    ensures var n := batches[b][k]; n in dag && n.result < |vs| && n == NodeOf(vs, n.result) && n.vertex == vs[n.result]
    ensures var n := batches[b][k];
            forall r: nat :: r in n.needs <==> r < |vs| && vs[r].cid in Deferreds(n.vertex.args)
  {
    var n := batches[b][k];
    assert At(batches, b, k, n);
    assert n in dag;
    forall r: nat { ReadsAre(vs, Deferreds(n.vertex.args), r); }
  }

  lemma NothingIn(rs: seq<nat>)
    ensures rs == [] <==> forall r :: r !in rs
  {
    if rs != [] { assert rs[0] in rs; }
  }

  lemma IsolatedIsAlone(vs: seq<Vertex>, i: nat)
    requires DistinctCids(vs) && i < |vs|
    ensures Isolated(vs, i) <==> Alone(vs, vs[i])
  {
    var ds := Deferreds(vs[i].args);
    if Isolated(vs, i) {
      forall w | w in vs ensures w.cid !in ds && vs[i].cid !in Deferreds(w.args) {
        var j :| 0 <= j < |vs| && vs[j] == w;
        ReadsAre(vs, ds, j);
        ReadsAre(vs, Deferreds(w.args), i);
        assert i !in ReadsOf(vs, j);
      }
    }
    if Alone(vs, vs[i]) {
      forall r: nat ensures r !in ReadsOf(vs, i) {
        ReadsAre(vs, ds, r);
      }
      NothingIn(ReadsOf(vs, i));
      forall j | 0 <= j < |vs| ensures i !in ReadsOf(vs, j) {
        ReadsAre(vs, Deferreds(vs[j].args), i);
        assert vs[j] in vs;
      }
    }
  }

  /** Every legal schedule of the compiled DAG orders the tasks of the workflow. */
  lemma ScheduleLegality(vs: seq<Vertex>, dag: seq<Node>, batches: seq<seq<Node>>)
    requires DistinctCids(vs) && IsDag(vs, dag) && Legal(dag, batches)
    ensures Ordered(vs, Vertices(batches)) && AloneLast(vs, Vertices(batches))
  {
    var schedule := Vertices(batches);
    assert forall b, k :: 0 <= b < |batches| && 0 <= k < |batches[b]| ==> schedule[b][k] == batches[b][k].vertex;
    forall b: nat, k: nat | b < |batches| && k < |batches[b]|
      ensures var n := batches[b][k]; n in dag && n.result < |vs| && n == NodeOf(vs, n.result) && n.vertex == vs[n.result]
      ensures var n := batches[b][k];
              forall r: nat :: r in n.needs <==> r < |vs| && vs[r].cid in Deferreds(n.vertex.args)
    {
      NodeAt(vs, dag, batches, b, k);
    }
    forall v ensures v in vs <==> exists b, k :: Sits(schedule, b, k, v) {
      if v in vs {
        var i :| 0 <= i < |vs| && vs[i] == v;
        assert NodeOf(vs, i) in dag;
        var b, k :| At(batches, b, k, NodeOf(vs, i));
        assert Sits(schedule, b, k, v);
      }
    }
    forall b, k, v, b', k', w | Sits(schedule, b, k, v) && Sits(schedule, b', k', w)
      ensures v.cid == w.cid ==> b == b' && k == k'
      ensures w.cid in Deferreds(v.args) ==> b' < b
      ensures Alone(vs, v) && !Alone(vs, w) ==> b' < b
    {
      var n, m := batches[b][k], batches[b'][k'];
      assert At(batches, b, k, n) && At(batches, b', k', m);
      if v.cid == w.cid {
        assert n.result == m.result;
      }
      if w.cid in Deferreds(v.args) {
        assert m.result in n.needs;
        var b'', k'', m' :| b'' < b && At(batches, b'', k'', m') && m'.result == m.result;
      }
      IsolatedIsAlone(vs, n.result);
      IsolatedIsAlone(vs, m.result);
    }
  }

  /** `Builder::graph`. */
  method Graph(tasks: seq<Task>) returns (r: Result<ExecutionGraph, BuildError>, ghost vs: seq<Vertex>)
    ensures r.Ok? ==> Expands(tasks, vs) && Indexed(vs, r.value.resources) && Recorded(tasks, r.value.resources)
    ensures (exists i :: 0 <= i < |tasks| && !Compiles(tasks[i])) ==> r.Err? && Refuses(tasks, r.error)
    ensures r.Err? && (forall i :: 0 <= i < |tasks| ==> Compiles(tasks[i])) ==> r.error == NoSchedule && Expands(tasks, vs)
    ensures r.Ok? && DistinctCids(vs) ==> Ordered(vs, r.value.schedule) && AloneLast(vs, r.value.schedule)
    ensures r.Ok? ==> forall b :: 0 <= b < |r.value.schedule| ==> r.value.schedule[b] != []
    ensures r.Err? && Expands(tasks, vs) && DistinctCids(vs) ==>
              forall schedule :: !Ordered(vs, schedule) || !AloneLast(vs, schedule)
  {
    var aot;
    aot, vs := CompileAot(tasks);
    if aot.Err? { return Err(aot.error), vs; }
    var built := BuildSchedule(aot.value.dag);
    if built.None? {
      if DistinctCids(vs) {
        forall schedule | Ordered(vs, schedule) && AloneLast(vs, schedule) ensures false {
          NodesOf(vs, aot.value.dag, schedule);
        }
      }
      return Err(NoSchedule), vs;
    }
    if DistinctCids(vs) { ScheduleLegality(vs, aot.value.dag, built.value); }
    r := Ok(ExecutionGraph(Vertices(built.value), aot.value.resources));
  }

  /** Some legal schedule exists. */
  ghost predicate Schedulable(dag: seq<Node>) {
    exists batches :: Legal(dag, batches)
  }

  ghost function NodeFor(vs: seq<Vertex>, v: Vertex): Node
    requires v in vs
  {
    var i :| 0 <= i < |vs| && vs[i] == v;
    NodeOf(vs, i)
  }

  /** An order of the tasks is a legal schedule of the DAG. */
  lemma NodesOf(vs: seq<Vertex>, dag: seq<Node>, schedule: seq<seq<Vertex>>)
    requires DistinctCids(vs) && IsDag(vs, dag) && Ordered(vs, schedule) && AloneLast(vs, schedule)
    ensures Schedulable(dag)
  {
    forall b, k | 0 <= b < |schedule| && 0 <= k < |schedule[b]| ensures schedule[b][k] in vs {
      assert Sits(schedule, b, k, schedule[b][k]);
    }
    var bs := seq(|schedule|, b requires 0 <= b < |schedule| =>
      seq(|schedule[b]|, k requires 0 <= k < |schedule[b]| =>
        NodeFor(vs, schedule[b][k])));
    forall b, k, n | At(bs, b, k, n)
      ensures Sits(schedule, b, k, n.vertex) && n.result < |vs| && n == NodeOf(vs, n.result)
      ensures n.barrier == (if Alone(vs, n.vertex) then 1 else 0)
    {
      assert schedule[b][k] in vs;
      IsolatedIsAlone(vs, n.result);
    }
    NodesCover(vs, dag, schedule, bs);
    forall b, k, n, b', k', n' | At(bs, b, k, n) && At(bs, b', k', n')
      ensures n.result == n'.result ==> b == b' && k == k'
      ensures n'.barrier < n.barrier ==> b' < b
    {
      assert Sits(schedule, b, k, n.vertex) && Sits(schedule, b', k', n'.vertex);
    }
    forall b, k, n, r | At(bs, b, k, n) && r in n.needs
      ensures exists b', k', m :: b' < b && At(bs, b', k', m) && m.result == r
    {
      ReadsAre(vs, Deferreds(n.vertex.args), r);
      var b', k' :| At(bs, b', k', NodeOf(vs, r));
      assert Sits(schedule, b, k, n.vertex) && Sits(schedule, b', k', vs[r]);
    }
    assert Legal(dag, bs);
  }

  lemma NodesCover(vs: seq<Vertex>, dag: seq<Node>, schedule: seq<seq<Vertex>>, bs: seq<seq<Node>>)
    requires DistinctCids(vs) && IsDag(vs, dag) && Ordered(vs, schedule)
    requires |bs| == |schedule| && forall b :: 0 <= b < |bs| ==> |bs[b]| == |schedule[b]|
    requires forall b, k, n :: At(bs, b, k, n) ==>
               Sits(schedule, b, k, n.vertex) && n.result < |vs| && n == NodeOf(vs, n.result)
    ensures forall i: nat :: i < |vs| ==> Placed(bs, NodeOf(vs, i))
    ensures forall n :: n in dag <==> Placed(bs, n)
  {
    forall i: nat | i < |vs| ensures Placed(bs, NodeOf(vs, i)) {
      assert vs[i] in vs;
      var b, k :| Sits(schedule, b, k, vs[i]);
      var n := bs[b][k];
      assert At(bs, b, k, n);
      assert vs[n.result].cid == vs[i].cid;
      assert n.result == i;
    }
    forall n ensures n in dag <==> Placed(bs, n) {
      if n in dag {
        var j :| 0 <= j < |dag| && dag[j] == n;
        assert n == NodeOf(vs, n.result);
      }
    }
  }
}
