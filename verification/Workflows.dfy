/**
 Compiling a workflow: tasks become nodes of a DAG with reads and barriers, and
 the DAG becomes a sequence of batches.
 */
module Workflows {
  import opened Wrappers
  import opened IpldModel
  import opened Wit
  import opened Inputs

  datatype Resource = RUrl(url: string) | RCid(cid: Cid)

  datatype Instruction = Instruction(cid: Cid, url: string, op: string, input: Input)

  datatype RunInstruction = Expanded(instruction: Instruction) | Ptr(cid: Cid)

  datatype Task = Task(run: RunInstruction, invocation: Cid)

  datatype Parsed = Parsed(fun: string, args: seq<Input>)

  /** What a node carries for its execution. */
  datatype Vertex = Vertex(cid: Cid, url: string, op: string, fun: string, args: seq<Input>, invocation: Cid)

  datatype Node = Node(vertex: Vertex, result: nat, needs: seq<nat>, barrier: nat)

  datatype Aot = Aot(dag: seq<Node>, resources: map<Cid, seq<Resource>>)

  datatype BuildError = NotExpanded | BadInput | NoSchedule

  function Get(es: seq<Entry>, key: string): Option<Ipld> {
    if es == [] then None else if es[0].key == key then Some(es[0].value) else Get(es[1..], key)
  }

  /** The function name and the arguments of a Wasm input. */
  function ParseCall(input: Input): Option<Parsed> {
    if input.InIpld? && input.ipld.Map? then
      match (Get(input.ipld.entries, "func"), Get(input.ipld.entries, "args"))
      case (Some(String(f)), Some(a)) =>
        (match ParseArgs(a) case Some(args) => Some(Parsed(f, args)) case None => None)
      case _ => None
    else None
  }

  /** Only promises that are arguments themselves, not those nested in one. */
  function Deferreds(args: seq<Input>): seq<Cid> {
    if args == [] then []
    else (if args[0].InDeferred? then [args[0].promise.instruction] else []) + Deferreds(args[1..])
  }

  function Links(args: seq<Input>): seq<Cid> {
    if args == [] then []
    else (if args[0].InIpld? && args[0].ipld.Link? then [args[0].ipld.cid] else []) + Links(args[1..])
  }

  lemma {:induction false} DeferredsAre(args: seq<Input>, c: Cid)
    ensures c in Deferreds(args) <==>
            exists k :: 0 <= k < |args| && args[k].InDeferred? && args[k].promise.instruction == c
  {
    if args != [] {
      DeferredsAre(args[1..], c);
      if c in Deferreds(args[1..]) {
        var k :| 0 <= k < |args[1..]| && args[1..][k].InDeferred? && args[1..][k].promise.instruction == c;
        assert args[k + 1].InDeferred?;
      }
      if k :| 0 <= k < |args| && args[k].InDeferred? && args[k].promise.instruction == c {
        if k > 0 { assert args[1..][k - 1] == args[k]; }
      }
    }
  }

  lemma {:induction false} LinksAre(args: seq<Input>, c: Cid)
    ensures c in Links(args) <==> InIpld(Link(c)) in args
  {
    if args != [] {
      LinksAre(args[1..], c);
      assert args == [args[0]] + args[1..];
    }
  }

  lemma Associative<T>(a: seq<T>, b: seq<T>, c: seq<T>)
    ensures a + (b + c) == (a + b) + c
  {
  }

  /** Deferred CIDs and links come in the order of the arguments. */
  lemma {:induction false} DeferredsInOrder(a: seq<Input>, b: seq<Input>)
    ensures Deferreds(a + b) == Deferreds(a) + Deferreds(b)
  {
    if a == [] {
      assert a + b == b;
    } else {
      DeferredsInOrder(a[1..], b);
      assert (a + b)[0] == a[0] && (a + b)[1..] == a[1..] + b;
      var first := if a[0].InDeferred? then [a[0].promise.instruction] else [];
      Associative(first, Deferreds(a[1..]), Deferreds(b));
    }
  }

  lemma {:induction false} LinksInOrder(a: seq<Input>, b: seq<Input>)
    ensures Links(a + b) == Links(a) + Links(b)
  {
    if a == [] {
      assert a + b == b;
    } else {
      LinksInOrder(a[1..], b);
      assert (a + b)[0] == a[0] && (a + b)[1..] == a[1..] + b;
      var first := if a[0].InIpld? && a[0].ipld.Link? then [a[0].ipld.cid] else [];
      Associative(first, Links(a[1..]), Links(b));
    }
  }

  /** A task as the DAG holds it; only inlined instructions with a Wasm call compile. */
  function Expand(t: Task): Result<Vertex, BuildError> {
    match t.run
    case Ptr(_) => Err(NotExpanded)
    case Expanded(i) =>
      match ParseCall(i.input)
      case None => Err(BadInput)
      case Some(p) => Ok(Vertex(i.cid, i.url, i.op, p.fun, p.args, t.invocation))
  }

  /** The first entry under the key holds the value. */
  ghost predicate Under(es: seq<Entry>, key: string, i: Ipld) {
    exists k :: 0 <= k < |es| && es[k] == Entry(key, i) && forall j :: 0 <= j < k ==> es[j].key != key
  }

  ghost predicate AllStandFor(items: seq<Ipld>, args: seq<Input>) {
    |items| == |args| && forall k :: 0 <= k < |items| ==> StandsFor(items[k], args[k])
  }

  /** The list under "args". */
  ghost predicate ArgumentList(input: Input, items: seq<Ipld>) {
    input.InIpld? && input.ipld.Map? && Under(input.ipld.entries, "args", List(items))
  }

  /** The input calls the function under "func" with the arguments under "args", one for each element. */
  ghost predicate IsCall(input: Input, fun: string, args: seq<Input>) {
    && input.InIpld? && input.ipld.Map? && Under(input.ipld.entries, "func", String(fun))
    && exists items :: ArgumentList(input, items) && AllStandFor(items, args)
  }

  /** The node holds the task: CID, module, operation and call of its instruction, and its invocation. */
  ghost predicate Carries(t: Task, v: Vertex) {
    && t.run.Expanded? && v.invocation == t.invocation
    && var i := t.run.instruction;
       v.cid == i.cid && v.url == i.url && v.op == i.op && IsCall(i.input, v.fun, v.args)
  }

  ghost predicate Expands(tasks: seq<Task>, vs: seq<Vertex>) {
    |vs| == |tasks| && forall i :: 0 <= i < |tasks| ==> Carries(tasks[i], vs[i])
  }

  /** The instruction is inlined and its input is a call. */
  ghost predicate Compiles(t: Task) {
    t.run.Expanded? && exists fun, args :: IsCall(t.run.instruction.input, fun, args)
  }

  /** The first task that does not compile decides the error. */
  ghost predicate Refuses(tasks: seq<Task>, e: BuildError) {
    exists i ::
      && 0 <= i < |tasks| && !Compiles(tasks[i]) && (forall j :: 0 <= j < i ==> Compiles(tasks[j]))
      && e == if tasks[i].run.Ptr? then NotExpanded else BadInput
  }

  lemma {:induction false} GetIs(es: seq<Entry>, key: string, i: Ipld)
    ensures Get(es, key) == Some(i) <==> Under(es, key, i)
  {
    if es != [] && es[0].key != key {
      GetIs(es[1..], key, i);
      if k :| 0 <= k < |es| && es[k] == Entry(key, i) && forall j :: 0 <= j < k ==> es[j].key != key {
        assert es[1..][k - 1] == es[k] && forall j :: 0 <= j < k - 1 ==> es[1..][j].key != key;
      }
      if k :| 0 <= k < |es[1..]| && es[1..][k] == Entry(key, i) && forall j :: 0 <= j < k ==> es[1..][j].key != key {
        assert es[k + 1] == Entry(key, i) && forall j :: 0 <= j < k + 1 ==> es[j].key != key;
      }
    }
  }

  lemma ArgsParsed(items: seq<Ipld>, args: seq<Input>)
    ensures ParseArgs(List(items)) == Some(args) <==> AllStandFor(items, args)
  {
    forall k | 0 <= k < |items| && |items| == |args|
      ensures ParseInput(items[k]) == args[k] <==> StandsFor(items[k], args[k])
    {
      ParsedExactly(items[k], args[k]);
    }
    if AllStandFor(items, args) { assert ParseArgs(List(items)).value == args; }
  }

  lemma CallParsed(input: Input, fun: string, args: seq<Input>)
    ensures ParseCall(input) == Some(Parsed(fun, args)) <==> IsCall(input, fun, args)
  {
    if input.InIpld? && input.ipld.Map? {
      var es := input.ipld.entries;
      GetIs(es, "func", String(fun));
      forall items
        ensures Get(es, "args") == Some(List(items)) <==> ArgumentList(input, items)
        ensures ParseArgs(List(items)) == Some(args) <==> AllStandFor(items, args)
      {
        GetIs(es, "args", List(items));
        ArgsParsed(items, args);
      }
      if ParseCall(input) == Some(Parsed(fun, args)) {
        assert ArgumentList(input, Get(es, "args").value.items);
      }
    }
  }

  /** A task expands to exactly the node that holds it. */
  lemma ExpandedExactly(t: Task, v: Vertex)
    ensures Expand(t) == Ok(v) <==> Carries(t, v)
  {
    if t.run.Expanded? { CallParsed(t.run.instruction.input, v.fun, v.args); }
  }

  lemma CompilesExactly(t: Task)
    ensures Expand(t).Ok? <==> Compiles(t)
    ensures Expand(t).Err? ==> Expand(t).error == if t.run.Ptr? then NotExpanded else BadInput
  {
    if Expand(t).Ok? { ExpandedExactly(t, Expand(t).value); }
    if Compiles(t) {
      var fun, args :| IsCall(t.run.instruction.input, fun, args);
      CallParsed(t.run.instruction.input, fun, args);
    }
  }

  /** Printing the arguments of a node gives the list of its instruction back, where promises name a branch. */
  lemma PrintsBack(c: Codec, t: Task, v: Vertex, items: seq<Ipld>)
    requires Carries(t, v) && ArgumentList(t.run.instruction.input, items)
    ensures PrintArgs(c, v.args) == List(items) <==> forall k :: 0 <= k < |items| ==> NamesBranch(items[k])
  {
    ExpandedExactly(t, v);
    GetIs(t.run.instruction.input.ipld.entries, "args", List(items));
    PrintParseExactly(c, items);
  }

  // ---------------------------------------------------------------------------
  // The nodes a workflow compiles to
  // ---------------------------------------------------------------------------

  /** The last task with the CID: `lookup_table` overwrites. */
  ghost function IndexOf(vs: seq<Vertex>, c: Cid): Option<nat> {
    if vs == [] then None
    else if vs[|vs| - 1].cid == c then Some(|vs| - 1)
    else IndexOf(vs[..|vs| - 1], c)
  }

  ghost function Reads(vs: seq<Vertex>, cids: seq<Cid>): seq<nat> {
    if cids == [] then []
    else Reads(vs, cids[..|cids| - 1]) + (match IndexOf(vs, cids[|cids| - 1]) case Some(i) => [i] case None => [])
  }

  ghost function ReadsOf(vs: seq<Vertex>, i: nat): seq<nat>
    requires i < |vs|
  {
    Reads(vs, Deferreds(vs[i].args))
  }

  ghost predicate Awaited(vs: seq<Vertex>, i: nat) {
    exists j :: 0 <= j < |vs| && i in ReadsOf(vs, j)
  }

  /** Reads nothing of this workflow and is read by nothing of it. */
  ghost predicate Isolated(vs: seq<Vertex>, i: nat)
    requires i < |vs|
  {
    ReadsOf(vs, i) == [] && !Awaited(vs, i)
  }

  ghost function NodeOf(vs: seq<Vertex>, i: nat): Node
    requires i < |vs|
  {
    Node(vs[i], i, ReadsOf(vs, i), if Isolated(vs, i) then 1 else 0)
  }

  ghost predicate DistinctCids(vs: seq<Vertex>) {
    forall i, j :: 0 <= i < j < |vs| ==> vs[i].cid != vs[j].cid
  }

  /** The last of the tasks that have the CID. */
  ghost predicate LastWith(vs: seq<Vertex>, c: Cid, i: nat) {
    i < |vs| && vs[i].cid == c && forall j :: i < j < |vs| ==> vs[j].cid != c
  }

  lemma {:induction false} IndexOfIs(vs: seq<Vertex>, c: Cid)
    ensures IndexOf(vs, c).None? <==> forall i :: 0 <= i < |vs| ==> vs[i].cid != c
    ensures forall i: nat :: IndexOf(vs, c) == Some(i) <==> LastWith(vs, c, i)
  {
    if vs != [] {
      var front := vs[..|vs| - 1];
      IndexOfIs(front, c);
      assert forall i :: 0 <= i < |front| ==> front[i] == vs[i];
    }
  }

  /** The tasks read are the last of those that have one of the CIDs. */
  lemma {:induction false} ReadsAre(vs: seq<Vertex>, cids: seq<Cid>, r: nat)
    ensures r in Reads(vs, cids) <==> r < |vs| && vs[r].cid in cids && LastWith(vs, vs[r].cid, r)
  {
    if cids != [] {
      var front := cids[..|cids| - 1];
      ReadsAre(vs, front, r);
      IndexOfIs(vs, cids[|cids| - 1]);
      assert cids == front + [cids[|cids| - 1]];
    }
  }

  method LookupTable(vs: seq<Vertex>) returns (table: map<Cid, nat>)
    ensures forall c :: c in table <==> exists i :: 0 <= i < |vs| && vs[i].cid == c
    ensures forall c :: c in table ==> LastWith(vs, c, table[c])
    ensures forall c :: c in table <==> IndexOf(vs, c).Some?
    ensures forall c :: c in table ==> IndexOf(vs, c) == Some(table[c])
  {
    table := map[];
    for i := 0 to |vs|
      invariant forall c :: c in table <==> IndexOf(vs[..i], c).Some?
      invariant forall c :: c in table ==> IndexOf(vs[..i], c) == Some(table[c])
    {
      assert vs[..i + 1][..i] == vs[..i];
      table := table[vs[i].cid := i];
    }
    assert vs[..|vs|] == vs;
    forall c ensures c in table <==> exists i :: 0 <= i < |vs| && vs[i].cid == c { IndexOfIs(vs, c); }
    forall c | c in table ensures LastWith(vs, c, table[c]) { IndexOfIs(vs, c); }
  }

  method InFlowReads(vs: seq<Vertex>, table: map<Cid, nat>, cids: seq<Cid>) returns (indices: seq<nat>)
    requires forall c :: c in table <==> IndexOf(vs, c).Some?
    requires forall c :: c in table ==> IndexOf(vs, c) == Some(table[c])
    ensures indices == Reads(vs, cids)
  {
    indices := [];
    for k := 0 to |cids|
      invariant indices == Reads(vs, cids[..k])
    {
      assert cids[..k + 1][..k] == cids[..k];
      if cids[k] in table { indices := indices + [table[cids[k]]]; }
    }
    assert cids[..|cids|] == cids;
  }

  /** The resources recorded for a task: its module, then its plain link arguments. */
  ghost function ResourcesOf(v: Vertex): seq<Resource> {
    [RUrl(v.url)] + LinkResources(Links(v.args))
  }

  ghost function LinkResources(links: seq<Cid>): seq<Resource> {
    seq(|links|, k requires 0 <= k < |links| => RCid(links[k]))
  }

  lemma LinkResourcesMore(links: seq<Cid>, k: nat)
    requires k < |links|
    ensures LinkResources(links[..k + 1]) == LinkResources(links[..k]) + [RCid(links[k])]
  {
  }

  method RecordResources(resources: map<Cid, seq<Resource>>, v: Vertex) returns (r: map<Cid, seq<Resource>>)
    ensures r.Keys == resources.Keys + {v.cid}
    ensures forall c :: c in resources && c != v.cid ==> r[c] == resources[c]
    ensures r[v.cid] == if v.cid in resources then resources[v.cid] + ResourcesOf(v)[1..] else ResourcesOf(v)
  {
    r := if v.cid in resources then resources else resources[v.cid := [RUrl(v.url)]];
    ghost var prior := r[v.cid];
    var links := Links(v.args);
    for k := 0 to |links|
      invariant v.cid in r && r.Keys == resources.Keys + {v.cid}
      invariant forall c :: c in resources && c != v.cid ==> r[c] == resources[c]
      invariant r[v.cid] == prior + LinkResources(links[..k])
    {
      LinkResourcesMore(links, k);
      r := r[v.cid := r[v.cid] + [RCid(links[k])]];
    }
    assert links[..|links|] == links;
  }

  ghost predicate Distinct(nodes: seq<Node>) {
    forall j, k :: 0 <= j < k < |nodes| ==> nodes[j].result != nodes[k].result
  }

  /** The nodes of all tasks, in task order and without barriers. */
  ghost function Plain(vs: seq<Vertex>): seq<Node> {
    seq(|vs|, i requires 0 <= i < |vs| => Node(vs[i], i, ReadsOf(vs, i), 0))
  }

  /** Each is one of the first `n` nodes of `all`, and reads something, or nothing. */
  ghost predicate Drawn(all: seq<Node>, nodes: seq<Node>, n: nat, reading: bool)
    requires n <= |all|
  {
    forall k :: 0 <= k < |nodes| ==>
      nodes[k].result < n && nodes[k] == all[nodes[k].result] && (nodes[k].needs != [] <==> reading)
  }

  ghost predicate Covered(all: seq<Node>, nodes: seq<Node>, n: nat, reading: bool)
    requires n <= |all|
  {
    forall j :: 0 <= j < n && (all[j].needs != [] <==> reading) ==> all[j] in nodes
  }

  /** Exactly those of the first `n` nodes of `all` that read something, or nothing, once each. */
  ghost predicate Gathered(all: seq<Node>, nodes: seq<Node>, n: nat, reading: bool)
    requires n <= |all|
  {
    Distinct(nodes) && Drawn(all, nodes, n, reading) && Covered(all, nodes, n, reading)
  }

  /** Exactly one node per task, with its reads and its barrier. */
  ghost predicate IsDag(vs: seq<Vertex>, dag: seq<Node>) {
    && Distinct(dag)
    && (forall k :: 0 <= k < |dag| ==> dag[k].result < |vs| && dag[k] == NodeOf(vs, dag[k].result))
    && (forall i: nat :: i < |vs| ==> NodeOf(vs, i) in dag)
  }

  /** The module and the plain links of every task, in that order. */
  ghost predicate Indexed(vs: seq<Vertex>, resources: map<Cid, seq<Resource>>) {
    && (forall c :: c in resources <==> exists j :: 0 <= j < |vs| && c == vs[j].cid)
    && (DistinctCids(vs) ==> forall j :: 0 <= j < |vs| ==> resources[vs[j].cid] == ResourcesOf(vs[j]))
  }

  /** `Builder::aot`. */
  method CompileAot(tasks: seq<Task>) returns (r: Result<Aot, BuildError>, ghost vs: seq<Vertex>)
    ensures r.Err? <==> exists i :: 0 <= i < |tasks| && !Compiles(tasks[i])
    ensures r.Err? ==> Refuses(tasks, r.error)
    ensures r.Ok? ==> Expands(tasks, vs) && IsDag(vs, r.value.dag) && Indexed(vs, r.value.resources)
    ensures r.Ok? ==> Recorded(tasks, r.value.resources)
  {
    var done := [];
    vs := [];
    for i := 0 to |tasks|
      invariant |done| == i && forall j :: 0 <= j < i ==> Compiles(tasks[j]) && Carries(tasks[j], done[j])
    {
      CompilesExactly(tasks[i]);
      if Expand(tasks[i]).Ok? { ExpandedExactly(tasks[i], Expand(tasks[i]).value); }
      match Expand(tasks[i])
      case Err(e) => return Err(e), [];
      case Ok(v) => done := done + [v];
    }
    vs := done;
    var dag := CompileDag(done);
    var resources := IndexResources(done);
    RecordedIs(tasks, vs, resources);
    r := Ok(Aot(dag, resources));
  }

  /** Under one CID: the module of its first task, and the links of all its tasks, in order. */
  ghost function ResourcesFor(vs: seq<Vertex>, c: Cid): seq<Resource> {
    if vs == [] then []
    else
      var before, last := ResourcesFor(vs[..|vs| - 1], c), vs[|vs| - 1];
      if last.cid != c then before else if before == [] then ResourcesOf(last) else before + ResourcesOf(last)[1..]
  }

  method IndexResources(vs: seq<Vertex>) returns (resources: map<Cid, seq<Resource>>)
    ensures forall c :: c in resources <==> ResourcesFor(vs, c) != []
    ensures forall c :: c in resources ==> resources[c] == ResourcesFor(vs, c)
    ensures Indexed(vs, resources)
  {
    resources := map[];
    for i := 0 to |vs|
      invariant forall c :: c in resources <==> ResourcesFor(vs[..i], c) != []
      invariant forall c :: c in resources ==> resources[c] == ResourcesFor(vs[..i], c)
    {
      ghost var before := resources;
      resources := RecordResources(resources, vs[i]);
      forall c
        ensures c in resources <==> ResourcesFor(vs[..i + 1], c) != []
        ensures c in resources ==> resources[c] == ResourcesFor(vs[..i + 1], c)
      {
        assert vs[..i + 1][..i] == vs[..i];
        assert c in before <==> ResourcesFor(vs[..i], c) != [];
      }
    }
    assert vs[..|vs|] == vs;
    IndexedFrom(vs, resources);
  }

  lemma IndexedFrom(vs: seq<Vertex>, resources: map<Cid, seq<Resource>>)
    requires forall c :: c in resources <==> ResourcesFor(vs, c) != []
    requires forall c :: c in resources ==> resources[c] == ResourcesFor(vs, c)
    ensures Indexed(vs, resources)
  {
    forall c ensures c in resources <==> exists j :: 0 <= j < |vs| && c == vs[j].cid { ResourcesAre(vs, c); }
    if DistinctCids(vs) {
      forall j | 0 <= j < |vs| ensures resources[vs[j].cid] == ResourcesOf(vs[j]) { OwnResources(vs, j); }
    }
  }

  lemma {:induction false} ResourcesAre(vs: seq<Vertex>, c: Cid)
    ensures ResourcesFor(vs, c) != [] <==> exists j :: 0 <= j < |vs| && c == vs[j].cid
  {
    if vs != [] {
      var front := vs[..|vs| - 1];
      ResourcesAre(front, c);
      assert forall j :: 0 <= j < |front| ==> front[j] == vs[j];
    }
  }

  /** A task that shares its CID with no other has exactly its own resources. */
  lemma {:induction false} OwnResources(vs: seq<Vertex>, j: nat)
    requires j < |vs| && forall i :: 0 <= i < |vs| && i != j ==> vs[i].cid != vs[j].cid
    ensures ResourcesFor(vs, vs[j].cid) == ResourcesOf(vs[j])
  {
    var front := vs[..|vs| - 1];
    if j < |front| {
      OwnResources(front, j);
    } else {
      ResourcesAre(front, vs[j].cid);
    }
  }

  /** The task's instruction has the CID, and the link is one of its arguments. */
  ghost predicate LinksTo(t: Task, c: Cid, link: Cid) {
    && t.run.Expanded? && t.run.instruction.cid == c
    && exists items :: ArgumentList(t.run.instruction.input, items) && Link(link) in items
  }

  /**
   Under the CID of each instruction: first its own module, that of the first task if several
   have the CID, and then the links that are arguments of its tasks, and nothing else.
   */
  ghost predicate Recorded(tasks: seq<Task>, resources: map<Cid, seq<Resource>>) {
    && (forall i :: 0 <= i < |tasks| && tasks[i].run.Expanded? && FirstWithCid(tasks, i) ==>
          && tasks[i].run.instruction.cid in resources
          && resources[tasks[i].run.instruction.cid] != []
          && resources[tasks[i].run.instruction.cid][0] == RUrl(tasks[i].run.instruction.url))
    && (forall c, k :: c in resources && 0 < k < |resources[c]| ==> resources[c][k].RCid?)
    && (forall c, link :: c in resources ==>
          (RCid(link) in resources[c] <==> exists i :: 0 <= i < |tasks| && LinksTo(tasks[i], c, link)))
    && (forall i, items :: OnlyWithCid(tasks, i, items) ==>
          && tasks[i].run.instruction.cid in resources
          && resources[tasks[i].run.instruction.cid] == [RUrl(tasks[i].run.instruction.url)] + LinkItems(items))
  }

  /** The links among the elements of an argument list, in order. */
  ghost function LinkItems(items: seq<Ipld>): seq<Resource> {
    if items == [] then []
    else (if items[0].Link? then [RCid(items[0].cid)] else []) + LinkItems(items[1..])
  }

  /** The task has its CID for itself, and these are the elements of its argument list. */
  ghost predicate OnlyWithCid(tasks: seq<Task>, i: int, items: seq<Ipld>) {
    && 0 <= i < |tasks| && tasks[i].run.Expanded? && ArgumentList(tasks[i].run.instruction.input, items)
    && forall j :: 0 <= j < |tasks| && j != i && tasks[j].run.Expanded? ==>
         tasks[j].run.instruction.cid != tasks[i].run.instruction.cid
  }

  ghost predicate FirstWithCid(tasks: seq<Task>, i: nat)
    requires i < |tasks| && tasks[i].run.Expanded?
  {
    forall j :: 0 <= j < i && tasks[j].run.Expanded? ==> tasks[j].run.instruction.cid != tasks[i].run.instruction.cid
  }

  lemma {:induction false} ModuleFirst(vs: seq<Vertex>, i: nat)
    requires i < |vs| && forall j :: 0 <= j < i ==> vs[j].cid != vs[i].cid
    ensures ResourcesFor(vs, vs[i].cid) != [] && ResourcesFor(vs, vs[i].cid)[0] == RUrl(vs[i].url)
  {
    var front := vs[..|vs| - 1];
    if i < |front| {
      ModuleFirst(front, i);
    } else {
      ResourcesAre(front, vs[i].cid);
    }
  }

  lemma {:induction false} OnlyLinksFollow(vs: seq<Vertex>, c: Cid)
    ensures forall k :: 0 < k < |ResourcesFor(vs, c)| ==> ResourcesFor(vs, c)[k].RCid?
  {
    if vs != [] { OnlyLinksFollow(vs[..|vs| - 1], c); }
  }

  lemma {:induction false} LinksRecorded(vs: seq<Vertex>, c: Cid, link: Cid)
    ensures RCid(link) in ResourcesFor(vs, c)
       <==> exists i :: 0 <= i < |vs| && vs[i].cid == c && InIpld(Link(link)) in vs[i].args
  {
    if vs != [] {
      var front, last := vs[..|vs| - 1], vs[|vs| - 1];
      LinksRecorded(front, c, link);
      assert forall i :: 0 <= i < |front| ==> front[i] == vs[i];
      LinksAre(last.args, link);
      LinkListed(Links(last.args), link);
      assert RCid(link) in ResourcesOf(last) <==> RCid(link) in ResourcesOf(last)[1..];
    }
  }

  lemma LinkListed(links: seq<Cid>, link: Cid)
    ensures RCid(link) in LinkResources(links) <==> link in links
  {
    if link in links {
      var k :| 0 <= k < |links| && links[k] == link;
      assert LinkResources(links)[k] == RCid(link);
    }
  }

  /** A node has a link as an argument exactly when its task has. */
  lemma SameLinks(t: Task, v: Vertex, c: Cid, link: Cid)
    requires Carries(t, v)
    ensures v.cid == c && InIpld(Link(link)) in v.args <==> LinksTo(t, c, link)
  {
    var input := t.run.instruction.input;
    var items :| ArgumentList(input, items) && AllStandFor(items, v.args);
    if k :| 0 <= k < |items| && items[k] == Link(link) {
      ParsedExactly(items[k], v.args[k]);
      assert v.args[k] == InIpld(Link(link));
    }
    if k :| 0 <= k < |v.args| && v.args[k] == InIpld(Link(link)) {
      assert StandsFor(items[k], v.args[k]) && items[k] == Link(link);
    }
    forall other | ArgumentList(input, other) ensures other == items {
      GetIs(input.ipld.entries, "args", List(other));
      GetIs(input.ipld.entries, "args", List(items));
    }
  }

  lemma LinkStandsForItself(i: Ipld, input: Input)
    requires StandsFor(i, input)
    ensures i.Link? <==> input.InIpld? && input.ipld.Link?
    ensures i.Link? ==> input.ipld == i
  {
    ParsedExactly(i, input);
  }

  lemma FirstLink(args: seq<Input>)
    requires args != []
    ensures LinkResources(Links(args))
         == (if args[0].InIpld? && args[0].ipld.Link? then [RCid(args[0].ipld.cid)] else []) + LinkResources(Links(args[1..]))
  {
  }

  lemma {:induction false} LinksAreItems(items: seq<Ipld>, args: seq<Input>)
    requires AllStandFor(items, args)
    ensures LinkResources(Links(args)) == LinkItems(items)
  {
    if items != [] {
      LinkStandsForItself(items[0], args[0]);
      FirstLink(args);
      assert forall k :: 0 <= k < |items[1..]| ==> items[1..][k] == items[k + 1] && args[1..][k] == args[k + 1];
      LinksAreItems(items[1..], args[1..]);
    }
  }

  lemma OwnRecorded(tasks: seq<Task>, vs: seq<Vertex>, i: nat, items: seq<Ipld>)
    requires Expands(tasks, vs) && OnlyWithCid(tasks, i, items)
    ensures vs[i].cid == tasks[i].run.instruction.cid
    ensures ResourcesFor(vs, vs[i].cid) == [RUrl(tasks[i].run.instruction.url)] + LinkItems(items)
  {
    assert Carries(tasks[i], vs[i]);
    forall j | 0 <= j < |vs| && j != i ensures vs[j].cid != vs[i].cid { assert Carries(tasks[j], vs[j]); }
    OwnResources(vs, i);
    var input := tasks[i].run.instruction.input;
    var own :| ArgumentList(input, own) && AllStandFor(own, vs[i].args);
    GetIs(input.ipld.entries, "args", List(own));
    GetIs(input.ipld.entries, "args", List(items));
    LinksAreItems(own, vs[i].args);
  }

  lemma RecordedIs(tasks: seq<Task>, vs: seq<Vertex>, resources: map<Cid, seq<Resource>>)
    requires Expands(tasks, vs)
    requires forall c :: c in resources <==> ResourcesFor(vs, c) != []
    requires forall c :: c in resources ==> resources[c] == ResourcesFor(vs, c)
    ensures Recorded(tasks, resources)
  {
    forall i | 0 <= i < |tasks| && tasks[i].run.Expanded? && FirstWithCid(tasks, i)
      ensures tasks[i].run.instruction.cid in resources && resources[tasks[i].run.instruction.cid] != []
      ensures resources[tasks[i].run.instruction.cid][0] == RUrl(tasks[i].run.instruction.url)
    {
      assert Carries(tasks[i], vs[i]);
      forall j | 0 <= j < i ensures vs[j].cid != vs[i].cid { assert Carries(tasks[j], vs[j]); }
      ModuleFirst(vs, i);
    }
    forall c | c in resources { OnlyLinksFollow(vs, c); }
    forall i, items | OnlyWithCid(tasks, i, items)
      ensures tasks[i].run.instruction.cid in resources
      ensures resources[tasks[i].run.instruction.cid] == [RUrl(tasks[i].run.instruction.url)] + LinkItems(items)
    {
      OwnRecorded(tasks, vs, i, items);
    }
    forall c, link | c in resources
      ensures RCid(link) in resources[c] <==> exists i :: 0 <= i < |tasks| && LinksTo(tasks[i], c, link)
    {
      LinksRecorded(vs, c, link);
      forall i | 0 <= i < |vs|
        ensures vs[i].cid == c && InIpld(Link(link)) in vs[i].args <==> LinksTo(tasks[i], c, link)
      {
        SameLinks(tasks[i], vs[i], c, link);
      }
    }
  }

  method CompileDag(vs: seq<Vertex>) returns (dag: seq<Node>)
    ensures IsDag(vs, dag)
  {
    var table := LookupTable(vs);
    ghost var all := Plain(vs);
    var waiting, unawaits, awaited := [], [], [];
    for i := 0 to |vs|
      invariant Sorting(all, waiting, unawaits, awaited, i)
    {
      var needs := InFlowReads(vs, table, Deferreds(vs[i].args));
      var node := Node(vs[i], i, needs, 0);
      assert node == all[i];
      SortingStep(all, waiting, unawaits, awaited, i);
      if needs != [] {
        waiting := waiting + [node];
        awaited := awaited + needs;
      } else {
        unawaits := unawaits + [node];
      }
    }
    AwaitedAre(vs, awaited);
    dag := AddUnawaits(vs, waiting, unawaits, awaited);
  }

  /** The first `n` nodes are sorted into those that read and those that do not, and what they read is listed. */
  ghost predicate Sorting(all: seq<Node>, waiting: seq<Node>, unawaits: seq<Node>, awaited: seq<nat>, n: nat) {
    n <= |all| && Gathered(all, waiting, n, true) && Gathered(all, unawaits, n, false) && Extended(all, awaited, n)
  }

  lemma SortingStep(all: seq<Node>, waiting: seq<Node>, unawaits: seq<Node>, awaited: seq<nat>, n: nat)
    requires n < |all| && all[n].result == n && Sorting(all, waiting, unawaits, awaited, n)
    ensures if all[n].needs != [] then Sorting(all, waiting + [all[n]], unawaits, awaited + all[n].needs, n + 1)
            else Sorting(all, waiting, unawaits + [all[n]], awaited, n + 1)
  {
    ExtendedStep(all, awaited, n);
    GatheredStep(all, waiting, n, true);
    GatheredStep(all, unawaits, n, false);
  }

  /** A task that reads nothing gets a barrier unless something reads it. */
  method AddUnawaits(vs: seq<Vertex>, waiting: seq<Node>, unawaits: seq<Node>, awaited: seq<nat>)
    returns (dag: seq<Node>)
    requires Gathered(Plain(vs), waiting, |vs|, true) && Gathered(Plain(vs), unawaits, |vs|, false)
    requires forall i: nat :: i < |vs| ==> (i in awaited <==> Awaited(vs, i))
    ensures IsDag(vs, dag)
  {
    dag := waiting;
    for k := 0 to |unawaits|
      invariant Appending(vs, waiting, unawaits, dag, k)
    {
      var node := unawaits[k];
      Barred(vs, node, awaited);
      AppendingStep(vs, waiting, unawaits, dag, k);
      if node.result !in awaited {
        node := node.(barrier := 1);
      }
      dag := dag + [node];
    }
    Assembled(vs, waiting, unawaits, dag);
  }

  /** The waiting nodes, and the nodes of the first `n` tasks that read nothing. */
  ghost predicate Appending(vs: seq<Vertex>, waiting: seq<Node>, unawaits: seq<Node>, dag: seq<Node>, n: nat) {
    && n <= |unawaits| && |dag| == |waiting| + n && (forall k :: 0 <= k < n ==> unawaits[k].result < |vs|)
    && (forall j :: 0 <= j < |waiting| ==> dag[j] == waiting[j])
    && (forall j :: |waiting| <= j < |dag| ==> dag[j] == NodeOf(vs, unawaits[j - |waiting|].result))
  }

  lemma AppendingStep(vs: seq<Vertex>, waiting: seq<Node>, unawaits: seq<Node>, dag: seq<Node>, n: nat)
    requires Appending(vs, waiting, unawaits, dag, n) && n < |unawaits| && unawaits[n].result < |vs|
    ensures Appending(vs, waiting, unawaits, dag + [NodeOf(vs, unawaits[n].result)], n + 1)
  {
  }

  lemma Barred(vs: seq<Vertex>, node: Node, awaited: seq<nat>)
    requires node.result < |vs| && node == Plain(vs)[node.result] && node.needs == []
    requires node.result in awaited <==> Awaited(vs, node.result)
    ensures NodeOf(vs, node.result) == if node.result !in awaited then node.(barrier := 1) else node
  {
  }

  lemma AwaitedAre(vs: seq<Vertex>, awaited: seq<nat>)
    requires Extended(Plain(vs), awaited, |vs|)
    ensures forall i: nat :: i in awaited <==> Awaited(vs, i)
  {
    forall i: nat ensures i in awaited <==> Awaited(vs, i) {
      if i in awaited {
        var j :| 0 <= j < |vs| && i in Plain(vs)[j].needs;
        assert i in ReadsOf(vs, j);
      }
      if Awaited(vs, i) {
        var j :| 0 <= j < |vs| && i in ReadsOf(vs, j);
        assert i in Plain(vs)[j].needs;
      }
    }
  }

  /** `awaited` holds what the first `n` nodes read. */
  ghost predicate Extended(all: seq<Node>, awaited: seq<nat>, n: nat)
    requires n <= |all|
  {
    forall a :: a in awaited <==> exists j :: 0 <= j < n && a in all[j].needs
  }

  lemma ExtendedStep(all: seq<Node>, awaited: seq<nat>, n: nat)
    requires n < |all| && Extended(all, awaited, n)
    ensures Extended(all, awaited + all[n].needs, n + 1)
    ensures all[n].needs == [] ==> Extended(all, awaited, n + 1)
  {
    assert awaited + [] == awaited;
  }

  lemma GatheredStep(all: seq<Node>, nodes: seq<Node>, n: nat, reading: bool)
    requires n < |all| && all[n].result == n && Gathered(all, nodes, n, reading)
    ensures Gathered(all, if (all[n].needs != []) == reading then nodes + [all[n]] else nodes, n + 1, reading)
  {
    DrawnStep(all, nodes, n, reading);
    CoveredStep(all, nodes, n, reading);
    if (all[n].needs != []) == reading { DistinctMore(nodes, all[n]); }
  }

  lemma DrawnStep(all: seq<Node>, nodes: seq<Node>, n: nat, reading: bool)
    requires n < |all| && all[n].result == n && Drawn(all, nodes, n, reading)
    ensures Drawn(all, if (all[n].needs != []) == reading then nodes + [all[n]] else nodes, n + 1, reading)
  {
  }

  lemma CoveredStep(all: seq<Node>, nodes: seq<Node>, n: nat, reading: bool)
    requires n < |all| && Covered(all, nodes, n, reading)
    ensures Covered(all, if (all[n].needs != []) == reading then nodes + [all[n]] else nodes, n + 1, reading)
  {
  }

  lemma DistinctMore(nodes: seq<Node>, node: Node)
    requires Distinct(nodes) && forall k :: 0 <= k < |nodes| ==> nodes[k].result < node.result
    ensures Distinct(nodes + [node])
  {
  }

  lemma Assembled(vs: seq<Vertex>, waiting: seq<Node>, unawaits: seq<Node>, dag: seq<Node>)
    requires Gathered(Plain(vs), waiting, |vs|, true) && Gathered(Plain(vs), unawaits, |vs|, false)
    requires Appending(vs, waiting, unawaits, dag, |unawaits|)
    ensures IsDag(vs, dag)
  {
    var all := Plain(vs);
    forall k | 0 <= k < |dag| ensures dag[k].result < |vs| && dag[k] == NodeOf(vs, dag[k].result) {
      if k < |waiting| { assert waiting[k] == all[waiting[k].result]; }
    }
    forall i: nat | i < |vs| ensures NodeOf(vs, i) in dag {
      if all[i].needs != [] {
        var k :| 0 <= k < |waiting| && waiting[k] == all[i];
        assert dag[k] == NodeOf(vs, i);
      } else {
        var k :| 0 <= k < |unawaits| && unawaits[k] == all[i];
        assert dag[|waiting| + k] == NodeOf(vs, i);
      }
    }
    forall j, k | 0 <= j < k < |dag| ensures dag[j].result != dag[k].result {
      assert k < |waiting| ==> waiting[j].result != waiting[k].result;
      assert |waiting| <= j ==> unawaits[j - |waiting|].result != unawaits[k - |waiting|].result;
      assert j < |waiting| <= k ==> waiting[j].needs != [] && unawaits[k - |waiting|].needs == [];
    }
  }
}
