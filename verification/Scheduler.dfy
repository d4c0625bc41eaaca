/**
 Where a workflow resumes. The batches are scanned from the last to the first for
 one whose tasks all have receipts; the scan also decides which resources to fetch.
 */
module Scheduler {
  import opened Wrappers
  import opened IpldModel
  import opened Inputs
  import opened Workflows
  import opened Database

  datatype TaskScheduler = TaskScheduler(
    linkmap: map<Cid, InstructionResult<Arg>>,
    ran: Option<seq<seq<Vertex>>>,
    run: seq<seq<Vertex>>,
    resumeStep: Option<nat>,
    resources: map<Resource, seq<Byte>>)

  datatype FetchError = FetchError

  type Pair = (Cid, Resource)

  /** A stored output, ready to be an argument. */
  function OutputAsArg(r: Receipt): InstructionResult<Arg> {
    match r.out
    case ResOk(i) => ResOk(ArgIpld(i))
    case ResError(i) => ResError(ArgIpld(i))
    case ResJust(i) => ResJust(ArgIpld(i))
  }

  function Cids(batch: seq<Vertex>): seq<Cid> {
    seq(|batch|, k requires 0 <= k < |batch| => batch[k].cid)
  }

  predicate AllIndexed(batch: seq<Vertex>, indexed: map<Cid, seq<Resource>>) {
    forall k :: 0 <= k < |batch| ==> batch[k].cid in indexed
  }

  /** Keys of the receipts of the batch's instructions. */
  ghost function Matching(t: Tables, batch: seq<Vertex>): set<Cid> {
    set k | k in t.receipts && t.receipts[k].instruction in Cids(batch)
  }

  /** The test the scan makes: as many receipts as tasks. */
  ghost predicate Hit(t: Tables, batch: seq<Vertex>, indexed: map<Cid, seq<Resource>>, up: bool) {
    up && AllIndexed(batch, indexed) && |Matching(t, batch)| == |batch|
  }

  // ---------------------------------------------------------------------------
  // The vector of resources to fetch
  // ---------------------------------------------------------------------------

  /** `Vec::swap_remove`. */
  function SwapRemove<T>(s: seq<T>, i: nat): seq<T>
    requires i < |s|
  {
    s[i := s[|s| - 1]][..|s| - 1]
  }

  lemma SwapRemoveIs<T>(s: seq<T>, i: nat)
    requires i < |s|
    ensures forall x :: x in SwapRemove(s, i) ==> x in s
    ensures forall x :: x in s && x != s[i] ==> x in SwapRemove(s, i)
  {
    var r := SwapRemove(s, i);
    forall x | x in s && x != s[i] ensures x in r {
      var k :| 0 <= k < |s| && s[k] == x;
      assert r[if k == |s| - 1 then i else k] == x;
    }
  }

  function Pairs(c: Cid, rs: seq<Resource>): seq<Pair> {
    seq(|rs|, k requires 0 <= k < |rs| => (c, rs[k]))
  }

  /** What a batch pushes: the resources of its tasks, up to the first task that has none recorded. */
  function PairsOf(batch: seq<Vertex>, indexed: map<Cid, seq<Resource>>): seq<Pair> {
    if batch == [] || batch[0].cid !in indexed then []
    else Pairs(batch[0].cid, indexed[batch[0].cid]) + PairsOf(batch[1..], indexed)
  }

  /** Remove one entry of the task, the first one in the vector. */
  function Drop(pairs: seq<Pair>, c: Cid): seq<Pair> {
    if exists i :: 0 <= i < |pairs| && pairs[i].0 == c then SwapRemove(pairs, First(pairs, c)) else pairs
  }

  function First(pairs: seq<Pair>, c: Cid): (i: nat)
    requires exists i :: 0 <= i < |pairs| && pairs[i].0 == c
    ensures i < |pairs| && pairs[i].0 == c && forall j :: 0 <= j < i ==> pairs[j].0 != c
  {
    if pairs[0].0 == c then 0 else
      assert exists i :: 0 <= i < |pairs[1..]| && pairs[1..][i].0 == c by {
        var i :| 0 <= i < |pairs| && pairs[i].0 == c;
        assert pairs[1..][i - 1].0 == c;
      }
      1 + First(pairs[1..], c)
  }

  function DropAll(pairs: seq<Pair>, found: seq<Receipt>): seq<Pair> {
    if found == [] then pairs else Drop(DropAll(pairs, found[..|found| - 1]), found[|found| - 1].instruction)
  }

  /** How many entries of the task the vector holds. */
  ghost function Entries(pairs: seq<Pair>, c: Cid): nat {
    if pairs == [] then 0 else Entries(pairs[..|pairs| - 1], c) + if pairs[|pairs| - 1].0 == c then 1 else 0
  }

  lemma {:induction false} EntriesAppend(a: seq<Pair>, b: seq<Pair>, c: Cid)
    ensures Entries(a + b, c) == Entries(a, c) + Entries(b, c)
  {
    if b == [] {
      assert a + b == a;
    } else {
      EntriesAppend(a, b[..|b| - 1], c);
      assert (a + b)[..|a + b| - 1] == a + b[..|b| - 1];
    }
  }

  lemma {:induction false} EntriesZero(pairs: seq<Pair>, c: Cid)
    ensures Entries(pairs, c) == 0 <==> forall i :: 0 <= i < |pairs| ==> pairs[i].0 != c
  {
    if pairs != [] {
      var front := pairs[..|pairs| - 1];
      EntriesZero(front, c);
      assert pairs == front + [pairs[|pairs| - 1]];
    }
  }

  lemma {:induction false} EntriesUpdate(pairs: seq<Pair>, i: nat, p: Pair, c: Cid)
    requires i < |pairs|
    ensures Entries(pairs[i := p], c) + (if pairs[i].0 == c then 1 else 0)
         == Entries(pairs, c) + (if p.0 == c then 1 else 0)
  {
    var n := |pairs| - 1;
    if i == n {
      assert pairs[i := p][..n] == pairs[..n];
    } else {
      EntriesUpdate(pairs[..n], i, p, c);
      assert pairs[i := p][..n] == pairs[..n][i := p];
    }
  }

  lemma DropEntries(pairs: seq<Pair>, d: Cid, c: Cid)
    ensures Entries(Drop(pairs, d), c) ==
            if c == d && Entries(pairs, c) > 0 then Entries(pairs, c) - 1 else Entries(pairs, c)
    ensures forall p :: p in Drop(pairs, d) ==> p in pairs
    ensures forall p :: p in pairs && p.0 != d ==> p in Drop(pairs, d)
  {
    EntriesZero(pairs, d);
    if exists i :: 0 <= i < |pairs| && pairs[i].0 == d {
      var i, n := First(pairs, d), |pairs| - 1;
      EntriesUpdate(pairs, i, pairs[n], c);
      assert pairs[i := pairs[n]] == SwapRemove(pairs, i) + [pairs[n]];
      EntriesAppend(SwapRemove(pairs, i), [pairs[n]], c);
      assert [pairs[n]][..0] == [];
      SwapRemoveIs(pairs, i);
    }
  }

  ghost predicate Names(found: seq<Receipt>, c: Cid) {
    exists k :: 0 <= k < |found| && found[k].instruction == c
  }

  /** How many of the receipts are for the instruction. */
  ghost function Times(found: seq<Receipt>, c: Cid): nat {
    if found == [] then 0
    else Times(found[..|found| - 1], c) + if found[|found| - 1].instruction == c then 1 else 0
  }

  lemma {:induction false} TimesZero(found: seq<Receipt>, c: Cid)
    ensures Times(found, c) == 0 <==> !Names(found, c)
  {
    if found != [] {
      var front := found[..|found| - 1];
      TimesZero(front, c);
      NamesMore(found, c);
    }
  }

  lemma NamesMore(found: seq<Receipt>, c: Cid)
    requires found != []
    ensures Names(found, c) <==> Names(found[..|found| - 1], c) || found[|found| - 1].instruction == c
  {
    var front := found[..|found| - 1];
    if Names(found, c) && found[|found| - 1].instruction != c {
      var k :| 0 <= k < |found| && found[k].instruction == c;
      assert front[k].instruction == c;
    }
    if Names(front, c) {
      var k :| 0 <= k < |front| && front[k].instruction == c;
      assert found[k].instruction == c;
    }
  }

  function Minus(n: nat, m: nat): nat {
    if m <= n then n - m else 0
  }

  /** Every receipt found takes exactly one entry of its task, as long as there is one. */
  lemma {:induction false} DropAllEntries(pairs: seq<Pair>, found: seq<Receipt>, c: Cid)
    ensures Entries(DropAll(pairs, found), c) == Minus(Entries(pairs, c), Times(found, c))
  {
    if found != [] {
      var front, last := found[..|found| - 1], found[|found| - 1];
      DropAllEntries(pairs, front, c);
      DropEntries(DropAll(pairs, front), last.instruction, c);
    }
  }

  lemma SwapRemoveTakes<T>(s: seq<T>, i: nat)
    requires i < |s|
    ensures multiset(SwapRemove(s, i)) == multiset(s) - multiset{s[i]}
  {
    var n := |s| - 1;
    assert s[i := s[n]] == SwapRemove(s, i) + [s[n]];
    assert multiset(s[i := s[n]]) == multiset(s) - multiset{s[i]} + multiset{s[n]};
    assert multiset(SwapRemove(s, i)) == multiset(s[i := s[n]]) - multiset{s[n]};
  }

  /** Entries only go, those of tasks without a receipt stay. */
  lemma {:induction false} DropAllKeeps(pairs: seq<Pair>, found: seq<Receipt>)
    ensures multiset(DropAll(pairs, found)) <= multiset(pairs)
    ensures forall p :: p in pairs && !Names(found, p.0) ==> p in DropAll(pairs, found)
  {
    if found != [] {
      var front, last := found[..|found| - 1], found[|found| - 1];
      var mid := DropAll(pairs, front);
      DropAllKeeps(pairs, front);
      if exists i :: 0 <= i < |mid| && mid[i].0 == last.instruction {
        SwapRemoveTakes(mid, First(mid, last.instruction));
      }
      forall p | p in pairs && !Names(found, p.0) ensures p in DropAll(pairs, found) {
        NamesMore(found, p.0);
        DropEntries(mid, last.instruction, p.0);
      }
    }
  }

  /** Which entry goes depends on the order of the rows: of two tasks, either resource of the second. */
  lemma RowOrderMatters(a: Receipt, b: Receipt, m: Resource, m': Resource, l: Resource)
    requires a.instruction != b.instruction
    ensures var pairs := [(a.instruction, m), (b.instruction, m'), (b.instruction, l)];
            DropAll(pairs, [a, b]) == [(b.instruction, m')] && DropAll(pairs, [b, a]) == [(b.instruction, l)]
  {
    var x, y, z := (a.instruction, m), (b.instruction, m'), (b.instruction, l);
    var pairs := [x, y, z];
    DropOne([], pairs, a);
    DropOne([], pairs, b);
    assert pairs[0].0 == a.instruction && pairs[1].0 == b.instruction;
    assert First(pairs, a.instruction) == 0 && First(pairs, b.instruction) == 1;
    assert SwapRemove(pairs, 0) == [z, y] && SwapRemove(pairs, 1) == [x, z];
    assert DropAll(pairs, [a]) == [z, y] && DropAll(pairs, [b]) == [x, z];
    DropOne([a], pairs, b);
    DropOne([b], pairs, a);
    assert [z, y][0].0 == b.instruction && [x, z][0].0 == a.instruction;
    assert First([z, y], b.instruction) == 0 && First([x, z], a.instruction) == 0;
    assert SwapRemove([z, y], 0) == [y] && SwapRemove([x, z], 0) == [z];
    assert [a] + [b] == [a, b] && [b] + [a] == [b, a];
  }

  lemma DropOne(front: seq<Receipt>, pairs: seq<Pair>, r: Receipt)
    ensures DropAll(pairs, front + [r]) == Drop(DropAll(pairs, front), r.instruction)
    ensures front == [] ==> DropAll(pairs, [r]) == Drop(pairs, r.instruction)
  {
    assert (front + [r])[..|front|] == front;
    assert [r][..0] == [];
  }

  method PushPairs(pairs: seq<Pair>, batch: seq<Vertex>, indexed: map<Cid, seq<Resource>>)
    returns (longer: seq<Pair>, pointers: Option<seq<Cid>>)
    ensures longer == pairs + PairsOf(batch, indexed)
    ensures pointers == if AllIndexed(batch, indexed) then Some(Cids(batch)) else None
  {
    longer := pairs;
    var ptrs := [];
    assert batch[0..] == batch;
    for k := 0 to |batch|
      invariant ptrs == Cids(batch[..k]) && AllIndexed(batch[..k], indexed)
      invariant pairs + PairsOf(batch, indexed) == longer + PairsOf(batch[k..], indexed)
    {
      var c := batch[k].cid;
      assert batch[k..][1..] == batch[k + 1..];
      if c !in indexed {
        assert longer + [] == longer;
        return longer, None;
      }
      for j := 0 to |indexed[c]|
        invariant pairs + PairsOf(batch, indexed)
               == longer + (Pairs(c, indexed[c])[j..] + PairsOf(batch[k + 1..], indexed))
      {
        assert Pairs(c, indexed[c])[j..] == [(c, indexed[c][j])] + Pairs(c, indexed[c])[j + 1..];
        longer := longer + [(c, indexed[c][j])];
      }
      ptrs := ptrs + [c];
      assert batch[..k + 1] == batch[..k] + [batch[k]];
    }
    assert batch[..|batch|] == batch && longer + [] == longer;
    pointers := Some(ptrs);
  }

  method DropFound(pairs: seq<Pair>, found: seq<Receipt>)
    returns (left: seq<Pair>, linkmap: map<Cid, InstructionResult<Arg>>)
    ensures left == DropAll(pairs, found)
    ensures forall c :: c in linkmap <==> Names(found, c)
    ensures forall c :: c in linkmap ==>
              exists k :: 0 <= k < |found| && found[k].instruction == c && linkmap[c] == OutputAsArg(found[k])
  {
    left, linkmap := pairs, map[];
    for k := 0 to |found|
      invariant left == DropAll(pairs, found[..k])
      invariant forall c :: c in linkmap <==> exists j :: 0 <= j < k && found[j].instruction == c
      invariant forall c :: c in linkmap ==>
                  exists j :: 0 <= j < k && found[j].instruction == c && linkmap[c] == OutputAsArg(found[j])
    {
      assert found[..k + 1][..k] == found[..k];
      var c := found[k].instruction;
      var i := 0;
      while i < |left| && left[i].0 != c
        invariant 0 <= i <= |left| && forall j :: 0 <= j < i ==> left[j].0 != c
      {
        i := i + 1;
      }
      if i < |left| {
        assert i == First(left, c);
        left := SwapRemove(left, i);
      }
      linkmap := linkmap[c := OutputAsArg(found[k])];
    }
    assert found[..|found|] == found;
  }

  // ---------------------------------------------------------------------------
  // The scan
  // ---------------------------------------------------------------------------

  /** A task with the CID sits in a batch numbered `from` or more. */
  ghost predicate InFrom(schedule: seq<seq<Vertex>>, from: int, c: Cid) {
    exists b, k :: from <= b && SitsCid(schedule, b, k, c)
  }

  ghost predicate SitsCid(schedule: seq<seq<Vertex>>, b: int, k: int, c: Cid) {
    0 <= b < |schedule| && 0 <= k < |schedule[b]| && schedule[b][k].cid == c
  }

  /** What the lookup of one batch gave: its rows in some order, or nothing where no lookup was made. */
  ghost predicate LookedAt(
    t: Tables, batch: seq<Vertex>, indexed: map<Cid, seq<Resource>>, up: bool, found: seq<Receipt>)
  {
    if up && AllIndexed(batch, indexed) then Finds(t, Cids(batch), found) else found == []
  }

  ghost predicate Looked(
    t: Tables, schedule: seq<seq<Vertex>>, indexed: map<Cid, seq<Resource>>, up: nat -> bool, from: nat,
    rows: seq<seq<Receipt>>)
  {
    |rows| == |schedule| && forall b :: from <= b < |schedule| ==> LookedAt(t, schedule[b], indexed, up(b), rows[b])
  }

  /** The vector after the batches from `b` on were scanned, the last one first. */
  ghost function Scanned(
    schedule: seq<seq<Vertex>>, indexed: map<Cid, seq<Resource>>, rows: seq<seq<Receipt>>, b: nat): seq<Pair>
    requires b <= |schedule| == |rows|
    decreases |schedule| - b
  {
    if b == |schedule| then []
    else DropAll(Scanned(schedule, indexed, rows, b + 1) + PairsOf(schedule[b], indexed), rows[b])
  }

  /** Everything these batches push. */
  ghost function Pushed(schedule: seq<seq<Vertex>>, indexed: map<Cid, seq<Resource>>, b: nat): multiset<Pair>
    requires b <= |schedule|
    decreases |schedule| - b
  {
    if b == |schedule| then multiset{}
    else Pushed(schedule, indexed, b + 1) + multiset(PairsOf(schedule[b], indexed))
  }

  lemma {:induction false} ScannedAgrees(
    schedule: seq<seq<Vertex>>, indexed: map<Cid, seq<Resource>>, rows: seq<seq<Receipt>>, rows': seq<seq<Receipt>>,
    b: nat)
    requires b <= |schedule| == |rows| == |rows'| && rows[b..] == rows'[b..]
    ensures Scanned(schedule, indexed, rows, b) == Scanned(schedule, indexed, rows', b)
    decreases |schedule| - b
  {
    if b < |schedule| {
      assert rows[b] == rows[b..][0] && rows'[b] == rows'[b..][0];
      assert rows[b + 1..] == rows[b..][1..] && rows'[b + 1..] == rows'[b..][1..];
      ScannedAgrees(schedule, indexed, rows, rows', b + 1);
    }
  }

  /** Only resources of tasks in the batches scanned so far are in the vector. */
  ghost predicate Within(schedule: seq<seq<Vertex>>, indexed: map<Cid, seq<Resource>>, from: int, pairs: seq<Pair>) {
    forall p :: p in pairs ==> InFrom(schedule, from, p.0) && p.0 in indexed && p.1 in indexed[p.0]
  }

  /** No two tasks of the schedule share a CID. */
  ghost predicate DistinctTasks(schedule: seq<seq<Vertex>>) {
    forall b, k, b', k', c :: SitsCid(schedule, b, k, c) && SitsCid(schedule, b', k', c) ==> b == b' && k == k'
  }

  /** No receipt is found for the task: there is none, or its batch, the only one it is in, was not looked up. */
  ghost predicate Spared(t: Tables, schedule: seq<seq<Vertex>>, up: nat -> bool, b: int, c: Cid) {
    !HasInstruction(t, c) || (0 <= b && !up(b) && DistinctTasks(schedule))
  }

  /** A task no receipt is found for keeps all its resources in the vector. */
  ghost predicate Covers(
    t: Tables, schedule: seq<seq<Vertex>>, indexed: map<Cid, seq<Resource>>, up: nat -> bool, from: int, pairs: seq<Pair>)
  {
    forall b, k, c, r ::
      from <= b && SitsCid(schedule, b, k, c) && AllIndexed(schedule[b], indexed) && Spared(t, schedule, up, b, c) ==>
        (r in indexed[c] ==> (c, r) in pairs)
  }

  /** Keys of the receipts of one instruction. */
  ghost function ReceiptsFor(t: Tables, c: Cid): set<Cid> {
    set k | k in t.receipts && t.receipts[k].instruction == c
  }

  /** Every task has lost exactly one entry for each receipt found for it, as far as it had entries. */
  ghost predicate Counted(
    t: Tables, schedule: seq<seq<Vertex>>, indexed: map<Cid, seq<Resource>>, up: nat -> bool, from: int, pairs: seq<Pair>)
  {
    forall b, k, c :: from <= b && SitsCid(schedule, b, k, c) && AllIndexed(schedule[b], indexed) ==>
      Entries(pairs, c) == Minus(|indexed[c]|, if up(b) then |ReceiptsFor(t, c)| else 0)
  }

  lemma {:induction false} PairsOfAre(batch: seq<Vertex>, indexed: map<Cid, seq<Resource>>)
    ensures forall p :: p in PairsOf(batch, indexed) ==> p.0 in Cids(batch) && p.0 in indexed && p.1 in indexed[p.0]
    ensures AllIndexed(batch, indexed) ==>
              forall k, r :: 0 <= k < |batch| && r in indexed[batch[k].cid] ==> (batch[k].cid, r) in PairsOf(batch, indexed)
  {
    if batch != [] && batch[0].cid in indexed {
      var c := batch[0].cid;
      PairsOfAre(batch[1..], indexed);
      var mine := Pairs(c, indexed[c]);
      forall r | r in indexed[c] ensures (c, r) in mine {
        var j :| 0 <= j < |indexed[c]| && indexed[c][j] == r;
        assert mine[j] == (c, r);
      }
      assert Cids(batch) == [c] + Cids(batch[1..]);
      if AllIndexed(batch, indexed) {
        assert AllIndexed(batch[1..], indexed);
        forall k, r | 0 <= k < |batch| && r in indexed[batch[k].cid]
          ensures (batch[k].cid, r) in PairsOf(batch, indexed)
        {
          if k > 0 { assert batch[1..][k - 1] == batch[k]; }
        }
      }
    }
  }

  lemma {:induction false} PairsOfEntries(batch: seq<Vertex>, indexed: map<Cid, seq<Resource>>, k: nat)
    requires k < |batch| && AllIndexed(batch, indexed)
    requires forall i, j :: 0 <= i < j < |batch| ==> batch[i].cid != batch[j].cid
    ensures Entries(PairsOf(batch, indexed), batch[k].cid) == |indexed[batch[k].cid]|
  {
    var c, rest := batch[0].cid, batch[1..];
    EntriesAppend(Pairs(c, indexed[c]), PairsOf(rest, indexed), batch[k].cid);
    PairsEntries(c, indexed[c], batch[k].cid);
    assert AllIndexed(rest, indexed);
    if k == 0 {
      PairsOfAre(rest, indexed);
      EntriesZero(PairsOf(rest, indexed), c);
      forall i | 0 <= i < |PairsOf(rest, indexed)| ensures PairsOf(rest, indexed)[i].0 != c {
        assert PairsOf(rest, indexed)[i] in PairsOf(rest, indexed);
      }
    } else {
      PairsOfEntries(rest, indexed, k - 1);
    }
  }

  lemma {:induction false} PairsEntries(d: Cid, rs: seq<Resource>, c: Cid)
    ensures Entries(Pairs(d, rs), c) == if c == d then |rs| else 0
  {
    if rs != [] {
      PairsEntries(d, rs[..|rs| - 1], c);
      assert Pairs(d, rs)[..|rs| - 1] == Pairs(d, rs[..|rs| - 1]);
    }
  }

  /** Answers to the lookup of a batch are exactly its matching receipts. */
  lemma FoundAre(t: Tables, batch: seq<Vertex>, found: seq<Receipt>)
    requires Keyed(t) && Finds(t, Cids(batch), found)
    ensures |found| == |Matching(t, batch)|
    ensures forall c :: Names(found, c) <==> HasInstruction(t, c) && c in Cids(batch)
  {
    DistinctCount(found, Matching(t, batch));
    forall c ensures Names(found, c) <==> HasInstruction(t, c) && c in Cids(batch) {
      if Names(found, c) {
        var k :| 0 <= k < |found| && found[k].instruction == c;
        assert found[k] in found;
      }
      if HasInstruction(t, c) && c in Cids(batch) {
        var k :| k in t.receipts && t.receipts[k].instruction == c;
        assert t.receipts[k] in found;
      }
    }
  }

  lemma {:induction false} DistinctCount(found: seq<Receipt>, keys: set<Cid>)
    requires forall i, j :: 0 <= i < j < |found| ==> found[i].cid != found[j].cid
    requires forall c :: c in keys <==> exists k :: 0 <= k < |found| && found[k].cid == c
    ensures |found| == |keys|
  {
    if found == [] {
      assert keys == {};
    } else {
      var front, last := found[..|found| - 1], found[|found| - 1];
      forall c ensures c in keys - {last.cid} <==> exists k :: 0 <= k < |front| && front[k].cid == c {
        if c in keys - {last.cid} {
          var k :| 0 <= k < |found| && found[k].cid == c;
          assert front[k].cid == c;
        }
      }
      DistinctCount(front, keys - {last.cid});
    }
  }

  lemma {:induction false} TimesCount(found: seq<Receipt>, c: Cid, keys: set<Cid>)
    requires forall i, j :: 0 <= i < j < |found| ==> found[i].cid != found[j].cid
    requires forall x :: x in keys <==> exists k :: 0 <= k < |found| && found[k].cid == x && found[k].instruction == c
    ensures Times(found, c) == |keys|
  {
    if found == [] {
      assert keys == {};
    } else {
      var front, last := found[..|found| - 1], found[|found| - 1];
      var keys' := keys - if last.instruction == c then {last.cid} else {};
      forall x
        ensures x in keys' <==> exists k :: 0 <= k < |front| && front[k].cid == x && front[k].instruction == c
      {
        if x in keys' {
          var k :| 0 <= k < |found| && found[k].cid == x && found[k].instruction == c;
          assert front[k].cid == x;
        }
        if k :| 0 <= k < |front| && front[k].cid == x && front[k].instruction == c {
          assert found[k].cid == x && found[k].cid != found[|found| - 1].cid;
        }
      }
      if last.instruction == c { assert found[|found| - 1].cid in keys; }
      TimesCount(front, c, keys');
    }
  }

  /** A lookup that was made gives each task of the batch all its receipts. */
  lemma TimesAre(t: Tables, batch: seq<Vertex>, found: seq<Receipt>, c: Cid)
    requires Keyed(t) && Finds(t, Cids(batch), found)
    ensures Times(found, c) == if c in Cids(batch) then |ReceiptsFor(t, c)| else 0
  {
    if c in Cids(batch) {
      var keys := ReceiptsFor(t, c);
      forall x ensures x in keys <==> exists k :: 0 <= k < |found| && found[k].cid == x && found[k].instruction == c {
        if x in keys { assert t.receipts[x] in found; }
        if k :| 0 <= k < |found| && found[k].cid == x && found[k].instruction == c { assert found[k] in found; }
      }
      TimesCount(found, c, keys);
    } else {
      FoundAre(t, batch, found);
      TimesZero(found, c);
    }
  }

  /** The vector after the scan holds part of what was pushed, and of tasks without receipts all of it. */
  lemma {:induction false} ScannedIs(
    t: Tables, schedule: seq<seq<Vertex>>, indexed: map<Cid, seq<Resource>>, up: nat -> bool, b: nat,
    rows: seq<seq<Receipt>>)
    requires Keyed(t) && b <= |schedule| && Looked(t, schedule, indexed, up, b, rows)
    ensures multiset(Scanned(schedule, indexed, rows, b)) <= Pushed(schedule, indexed, b)
    ensures Within(schedule, indexed, b, Scanned(schedule, indexed, rows, b))
    ensures Covers(t, schedule, indexed, up, b, Scanned(schedule, indexed, rows, b))
    decreases |schedule| - b
  {
    if b < |schedule| {
      ScannedIs(t, schedule, indexed, up, b + 1, rows);
      var pairs := Scanned(schedule, indexed, rows, b + 1);
      DropAllKeeps(pairs + PairsOf(schedule[b], indexed), rows[b]);
      ScanWithin(schedule, indexed, b, pairs, rows[b]);
      ScanCovers(t, schedule, indexed, up, b, pairs, rows[b]);
    }
  }

  lemma InFromMore(schedule: seq<seq<Vertex>>, b: nat, c: Cid)
    requires b < |schedule|
    ensures InFrom(schedule, b, c) <==> InFrom(schedule, b + 1, c) || c in Cids(schedule[b])
  {
    if c in Cids(schedule[b]) {
      var k :| 0 <= k < |schedule[b]| && Cids(schedule[b])[k] == c;
      assert SitsCid(schedule, b, k, c);
    }
    if InFrom(schedule, b, c) && !InFrom(schedule, b + 1, c) {
      var b', k :| b <= b' && SitsCid(schedule, b', k, c);
      assert Cids(schedule[b])[k] == c;
    }
  }

  lemma ScanWithin(
    schedule: seq<seq<Vertex>>, indexed: map<Cid, seq<Resource>>, b: nat, pairs: seq<Pair>, found: seq<Receipt>)
    requires b < |schedule| && Within(schedule, indexed, b + 1, pairs)
    ensures Within(schedule, indexed, b, DropAll(pairs + PairsOf(schedule[b], indexed), found))
  {
    var longer := pairs + PairsOf(schedule[b], indexed);
    var left := DropAll(longer, found);
    PairsOfAre(schedule[b], indexed);
    DropAllKeeps(longer, found);
    forall p | p in left ensures InFrom(schedule, b, p.0) && p.0 in indexed && p.1 in indexed[p.0] {
      assert p in multiset(longer);
      InFromMore(schedule, b, p.0);
    }
  }

  lemma ScanCovers(
    t: Tables, schedule: seq<seq<Vertex>>, indexed: map<Cid, seq<Resource>>, up: nat -> bool, b: nat,
    pairs: seq<Pair>, found: seq<Receipt>)
    requires Keyed(t) && b < |schedule| && Covers(t, schedule, indexed, up, b + 1, pairs)
    requires LookedAt(t, schedule[b], indexed, up(b), found)
    ensures Covers(t, schedule, indexed, up, b, DropAll(pairs + PairsOf(schedule[b], indexed), found))
  {
    var longer := pairs + PairsOf(schedule[b], indexed);
    PairsOfAre(schedule[b], indexed);
    DropAllKeeps(longer, found);
    forall b', k', c, r | b <= b' && SitsCid(schedule, b', k', c) && AllIndexed(schedule[b'], indexed)
                          && Spared(t, schedule, up, b', c) && r in indexed[c]
      ensures (c, r) in DropAll(longer, found)
    {
      assert (c, r) in longer;
      SparedUnnamed(t, schedule, indexed, up, b, found, b', k', c);
    }
  }

  lemma SparedUnnamed(
    t: Tables, schedule: seq<seq<Vertex>>, indexed: map<Cid, seq<Resource>>, up: nat -> bool, b: nat,
    found: seq<Receipt>, b': int, k': int, c: Cid)
    requires Keyed(t) && b < |schedule| && b <= b' && SitsCid(schedule, b', k', c) && Spared(t, schedule, up, b', c)
    requires LookedAt(t, schedule[b], indexed, up(b), found)
    ensures !Names(found, c)
  {
    if found != [] {
      FoundAre(t, schedule[b], found);
      if HasInstruction(t, c) && b < b' { PushedElsewhere(schedule, indexed, b, b', k', c); }
    }
  }

  /** What every task has lost, over all the pushes and removals of the scan. */
  lemma {:induction false} ScanCounts(
    t: Tables, schedule: seq<seq<Vertex>>, indexed: map<Cid, seq<Resource>>, up: nat -> bool, b: nat,
    rows: seq<seq<Receipt>>)
    requires Keyed(t) && b <= |schedule| && Looked(t, schedule, indexed, up, b, rows) && DistinctTasks(schedule)
    ensures Counted(t, schedule, indexed, up, b, Scanned(schedule, indexed, rows, b))
    decreases |schedule| - b
  {
    if b < |schedule| {
      ScanCounts(t, schedule, indexed, up, b + 1, rows);
      ScannedIs(t, schedule, indexed, up, b + 1, rows);
      var pairs := Scanned(schedule, indexed, rows, b + 1);
      forall b', k', c | b <= b' && SitsCid(schedule, b', k', c) && AllIndexed(schedule[b'], indexed)
        ensures Entries(Scanned(schedule, indexed, rows, b), c)
             == Minus(|indexed[c]|, if up(b') then |ReceiptsFor(t, c)| else 0)
      {
        CountsHere(t, schedule, indexed, up, b, pairs, rows[b], b', k', c);
      }
    }
  }

  lemma CountsHere(
    t: Tables, schedule: seq<seq<Vertex>>, indexed: map<Cid, seq<Resource>>, up: nat -> bool, b: nat,
    pairs: seq<Pair>, found: seq<Receipt>, b': int, k': int, c: Cid)
    requires Keyed(t) && DistinctTasks(schedule) && b < |schedule| && Within(schedule, indexed, b + 1, pairs)
    requires LookedAt(t, schedule[b], indexed, up(b), found)
    requires b <= b' && SitsCid(schedule, b', k', c) && AllIndexed(schedule[b'], indexed)
    requires b < b' ==> Entries(pairs, c) == Minus(|indexed[c]|, if up(b') then |ReceiptsFor(t, c)| else 0)
    ensures Entries(DropAll(pairs + PairsOf(schedule[b], indexed), found), c)
         == Minus(|indexed[c]|, if up(b') then |ReceiptsFor(t, c)| else 0)
  {
    TimesFound(t, schedule[b], indexed, up(b), found, c);
    DropAllEntries(pairs + PairsOf(schedule[b], indexed), found, c);
    EntriesAppend(pairs, PairsOf(schedule[b], indexed), c);
    if b' == b {
      PushedHere(schedule, indexed, b, k', pairs);
    } else {
      PushedElsewhere(schedule, indexed, b, b', k', c);
    }
  }

  lemma TimesFound(t: Tables, batch: seq<Vertex>, indexed: map<Cid, seq<Resource>>, up: bool, found: seq<Receipt>, c: Cid)
    requires Keyed(t) && LookedAt(t, batch, indexed, up, found)
    ensures Times(found, c) == if up && AllIndexed(batch, indexed) && c in Cids(batch) then |ReceiptsFor(t, c)| else 0
  {
    if up && AllIndexed(batch, indexed) { TimesAre(t, batch, found, c); }
  }

  lemma PushedHere(schedule: seq<seq<Vertex>>, indexed: map<Cid, seq<Resource>>, b: nat, k: nat, pairs: seq<Pair>)
    requires b < |schedule| && k < |schedule[b]| && DistinctTasks(schedule) && AllIndexed(schedule[b], indexed)
    requires Within(schedule, indexed, b + 1, pairs)
    ensures var c := schedule[b][k].cid;
            c in Cids(schedule[b]) && Entries(pairs, c) == 0 && Entries(PairsOf(schedule[b], indexed), c) == |indexed[c]|
  {
    var batch, c := schedule[b], schedule[b][k].cid;
    assert forall i, j :: 0 <= i < j < |batch| ==>
      SitsCid(schedule, b, i, batch[i].cid) && SitsCid(schedule, b, j, batch[j].cid);
    PairsOfEntries(batch, indexed, k);
    EntriesZero(pairs, c);
    assert SitsCid(schedule, b, k, c);
    forall i | 0 <= i < |pairs| ensures pairs[i].0 != c {
      assert pairs[i] in pairs;
      var b'', k'' :| b + 1 <= b'' && SitsCid(schedule, b'', k'', pairs[i].0);
    }
    assert Cids(batch)[k] == c;
  }

  lemma PushedElsewhere(
    schedule: seq<seq<Vertex>>, indexed: map<Cid, seq<Resource>>, b: nat, b': int, k': int, c: Cid)
    requires b < |schedule| && b < b' && SitsCid(schedule, b', k', c) && DistinctTasks(schedule)
    ensures c !in Cids(schedule[b]) && Entries(PairsOf(schedule[b], indexed), c) == 0
  {
    var batch, mine := schedule[b], PairsOf(schedule[b], indexed);
    forall k | 0 <= k < |batch| ensures Cids(batch)[k] != c { assert SitsCid(schedule, b, k, batch[k].cid); }
    PairsOfAre(batch, indexed);
    EntriesZero(mine, c);
    forall i | 0 <= i < |mine| ensures mine[i].0 != c { assert mine[i] in mine; }
  }

  /** What the linkmap holds after a hit: an output of a stored receipt for each task of the batch. */
  ghost predicate Linked(t: Tables, batch: seq<Vertex>, linkmap: map<Cid, InstructionResult<Arg>>) {
    && (forall c :: c in linkmap <==> HasInstruction(t, c) && c in Cids(batch))
    && (forall c :: c in linkmap ==>
          exists k :: k in t.receipts && t.receipts[k].instruction == c && linkmap[c] == OutputAsArg(t.receipts[k]))
  }

  /**
   The backward scan. `up` says which lookups the database answered. The pivot is
   the last batch that hits; the vector is what the pushes and removals up to it leave.
   */
  method Scan(db: Db, schedule: seq<seq<Vertex>>, indexed: map<Cid, seq<Resource>>, up: nat -> bool)
    returns (pivot: Option<nat>, linkmap: map<Cid, InstructionResult<Arg>>, pairs: seq<Pair>, ghost rows: seq<seq<Receipt>>)
    requires db.Valid()
    ensures pivot.Some? ==>
              && pivot.value < |schedule| && Hit(db.View(), schedule[pivot.value], indexed, up(pivot.value))
              && Linked(db.View(), schedule[pivot.value], linkmap)
    ensures pivot.None? ==> linkmap == map[]
    ensures var from := if pivot.Some? then pivot.value else 0;
            && (forall b :: (if pivot.Some? then from + 1 else 0) <= b < |schedule| ==>
                  !Hit(db.View(), schedule[b], indexed, up(b)))
            && Looked(db.View(), schedule, indexed, up, from, rows)
            && pairs == Scanned(schedule, indexed, rows, from)
  {
    ghost var t := db.View();
    RowsAre(db.receipts);
    rows := seq(|schedule|, b => []);
    pairs := [];
    var idx := |schedule|;
    while idx > 0
      invariant 0 <= idx <= |schedule|
      invariant forall b :: idx <= b < |schedule| ==> !Hit(t, schedule[b], indexed, up(b))
      invariant Looked(t, schedule, indexed, up, idx, rows) && pairs == Scanned(schedule, indexed, rows, idx)
    {
      idx := idx - 1;
      var longer, pointers := PushPairs(pairs, schedule[idx], indexed);
      ghost var before := rows;
      if pointers.Some? && up(idx) {
        var found := db.FindInstructionPointers(pointers.value);
        FoundAre(t, schedule[idx], found);
        var left, links := DropFound(longer, found);
        rows, pairs := rows[idx := found], left;
        ScannedAgrees(schedule, indexed, before, rows, idx + 1);
        if |found| == |schedule[idx]| {
          LinkedFrom(t, schedule[idx], found, links);
          return Some(idx), links, pairs, rows;
        }
      } else {
        rows, pairs := rows[idx := []], longer;
        ScannedAgrees(schedule, indexed, before, rows, idx + 1);
      }
    }
    pivot, linkmap := None, map[];
  }

  lemma LinkedFrom(t: Tables, batch: seq<Vertex>, found: seq<Receipt>, linkmap: map<Cid, InstructionResult<Arg>>)
    requires Keyed(t) && Finds(t, Cids(batch), found)
    requires forall c :: c in linkmap <==> Names(found, c)
    requires forall c :: c in linkmap ==>
               exists k :: 0 <= k < |found| && found[k].instruction == c && linkmap[c] == OutputAsArg(found[k])
    ensures Linked(t, batch, linkmap)
  {
    FoundAre(t, batch, found);
    forall c | c in linkmap
      ensures exists k :: k in t.receipts && t.receipts[k].instruction == c && linkmap[c] == OutputAsArg(t.receipts[k])
    {
      var k :| 0 <= k < |found| && found[k].instruction == c && linkmap[c] == OutputAsArg(found[k]);
      assert found[k] in found;
      assert t.receipts[found[k].cid] == found[k];
    }
  }
}
