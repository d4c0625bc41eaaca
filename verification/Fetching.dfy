/**
 Which modules are fetched on resuming, whatever order the database returns rows in.
 */
module Fetching {
  import opened IpldModel
  import opened Workflows
  import opened Database
  import opened Scheduler
  import opened Resume

  // ---------------------------------------------------------------------------
  // Rows in the order that takes every module
  // ---------------------------------------------------------------------------

  ghost function RowsIn(t: Tables, keys: set<Cid>): seq<Receipt>
    requires forall k :: k in keys ==> k in t.receipts
  {
    if keys == {} then []
    else
      var k :| k in keys;
      [t.receipts[k]] + RowsIn(t, keys - {k})
  }

  lemma {:induction false} RowsInAre(t: Tables, keys: set<Cid>)
    requires Keyed(t) && forall k :: k in keys ==> k in t.receipts
    ensures forall r :: r in RowsIn(t, keys) <==> r.cid in keys && t.receipts[r.cid] == r
    ensures DistinctRows(RowsIn(t, keys))
    ensures keys != {} ==> RowsIn(t, keys) != []
  {
    if keys != {} {
      var k :| k in keys && RowsIn(t, keys) == [t.receipts[k]] + RowsIn(t, keys - {k});
      RowsInAre(t, keys - {k});
    }
  }

  /** The receipts of the batch, those of its last task first. */
  ghost function Backwards(t: Tables, batch: seq<Vertex>): seq<Receipt> {
    if batch == [] then []
    else RowsIn(t, ReceiptsFor(t, batch[|batch| - 1].cid)) + Backwards(t, batch[..|batch| - 1])
  }

  lemma {:induction false} BackwardsFinds(t: Tables, batch: seq<Vertex>)
    requires Keyed(t) && DistinctBatch(batch)
    ensures Database.Finds(t, Cids(batch), Backwards(t, batch))
  {
    if batch != [] {
      var front, last := batch[..|batch| - 1], batch[|batch| - 1];
      BackwardsFinds(t, front);
      RowsInAre(t, ReceiptsFor(t, last.cid));
      assert Cids(batch) == Cids(front) + [last.cid];
      var mine, rest := RowsIn(t, ReceiptsFor(t, last.cid)), Backwards(t, front);
      forall k | 0 <= k < |front| ensures Cids(front)[k] != last.cid { assert front[k] == batch[k]; }
      forall i, j | 0 <= i < |mine| && 0 <= j < |rest| ensures mine[i].cid != rest[j].cid {
        assert mine[i] in mine && rest[j] in rest;
      }
    }
  }

  // ---------------------------------------------------------------------------
  // What that order leaves
  // ---------------------------------------------------------------------------

  lemma {:induction false} DropAllAppend(pairs: seq<Pair>, a: seq<Receipt>, b: seq<Receipt>)
    ensures DropAll(pairs, a + b) == DropAll(DropAll(pairs, a), b)
  {
    if b == [] {
      assert a + b == a;
    } else {
      assert (a + b)[..|a + b| - 1] == a + b[..|b| - 1];
      DropAllAppend(pairs, a, b[..|b| - 1]);
    }
  }

  ghost predicate NoneOf(pairs: seq<Pair>, c: Cid) {
    forall i :: 0 <= i < |pairs| ==> pairs[i].0 != c
  }

  lemma {:induction false} DropBehindOne(x: seq<Pair>, w: seq<Pair>, c: Cid)
    requires NoneOf(x, c)
    ensures Drop(x + w, c) == x + Drop(w, c)
  {
    if exists i :: 0 <= i < |w| && w[i].0 == c {
      var i := First(w, c);
      assert (x + w)[|x| + i].0 == c;
      var j := First(x + w, c);
      assert forall k :: 0 <= k < |x| ==> (x + w)[k] == x[k];
      assert w[j - |x|].0 == c && forall k :: 0 <= k < i ==> (x + w)[|x| + k] == w[k];
      assert j == |x| + i;
      assert SwapRemove(x + w, j) == x + SwapRemove(w, i);
    } else {
      assert NoneOf(x + w, c);
    }
  }

  /** Removals for a task that has no entry in front leave what is in front alone. */
  lemma {:induction false} DropBehind(x: seq<Pair>, w: seq<Pair>, found: seq<Receipt>, c: Cid)
    requires NoneOf(x, c) && forall k :: 0 <= k < |found| ==> found[k].instruction == c
    ensures DropAll(x + w, found) == x + DropAll(w, found)
  {
    if found != [] {
      var front := found[..|found| - 1];
      DropBehind(x, w, front, c);
      DropBehindOne(x, DropAll(w, front), c);
    }
  }

  lemma {:induction false} HeadGone(w: seq<Pair>, e: Pair)
    requires w != [] && forall k :: 0 < k < |w| ==> w[k] != e
    ensures e !in SwapRemove(w, 0)
  {
  }

  lemma {:induction false} DropAllSubset(pairs: seq<Pair>, found: seq<Receipt>, e: Pair)
    requires e !in pairs
    ensures e !in DropAll(pairs, found)
  {
    DropAllKeeps(pairs, found);
    assert multiset(DropAll(pairs, found))[e] <= multiset(pairs)[e];
  }

  /** The first receipt of a task takes its first resource, and the others only take more. */
  lemma {:induction false} TakesFirst(c: Cid, rs: seq<Resource>, z: seq<Pair>, found: seq<Receipt>)
    requires LeadsOnce(rs) && NoneOf(z, c)
    requires found != [] && forall k :: 0 <= k < |found| ==> found[k].instruction == c
    ensures (c, rs[0]) !in DropAll(Pairs(c, rs) + z, found)
  {
    var w, e := Pairs(c, rs) + z, (c, rs[0]);
    forall k | 0 < k < |w| ensures w[k] != e {
      if k < |rs| { assert w[k] == (c, rs[1..][k - 1]); } else { assert w[k] == z[k - |rs|]; }
    }
    HeadGone(w, e);
    assert w[0] == e && First(w, c) == 0;
    var head, tail := found[..1], found[1..];
    assert head + tail == found && head[..0] == [];
    assert DropAll(w, head) == SwapRemove(w, 0);
    DropAllAppend(w, head, tail);
    DropAllSubset(SwapRemove(w, 0), tail, e);
  }

  lemma {:induction false} PairsOfAppend(front: seq<Vertex>, last: Vertex, indexed: map<Cid, seq<Resource>>)
    requires AllIndexed(front, indexed) && last.cid in indexed
    ensures PairsOf(front + [last], indexed) == PairsOf(front, indexed) + Pairs(last.cid, indexed[last.cid])
  {
    var all := front + [last];
    if front == [] {
      assert all[1..] == [] && Pairs(last.cid, indexed[last.cid]) + [] == Pairs(last.cid, indexed[last.cid]);
    } else {
      assert AllIndexed(front[1..], indexed) && all[1..] == front[1..] + [last];
      PairsOfAppend(front[1..], last, indexed);
    }
  }

  /** A first resource that no other entry of the task repeats. */
  ghost predicate LeadsOnce(rs: seq<Resource>) {
    rs != [] && rs[0] !in rs[1..]
  }

  ghost predicate AllLead(batch: seq<Vertex>, indexed: map<Cid, seq<Resource>>) {
    AllIndexed(batch, indexed) && forall k :: 0 <= k < |batch| ==> LeadsOnce(indexed[batch[k].cid])
  }

  lemma DropsBehindFirst(before: seq<Pair>, w: seq<Pair>, mine: seq<Receipt>, rest: seq<Receipt>, c: Cid)
    requires NoneOf(before, c) && forall k :: 0 <= k < |mine| ==> mine[k].instruction == c
    ensures DropAll(before + w, mine + rest) == DropAll(before + DropAll(w, mine), rest)
  {
    DropBehind(before, w, mine, c);
    DropAllAppend(before + w, mine, rest);
  }

  lemma RowsAreOf(t: Tables, c: Cid)
    requires Keyed(t)
    ensures forall k :: 0 <= k < |RowsIn(t, ReceiptsFor(t, c))| ==> RowsIn(t, ReceiptsFor(t, c))[k].instruction == c
  {
    var mine := RowsIn(t, ReceiptsFor(t, c));
    RowsInAre(t, ReceiptsFor(t, c));
    forall i | 0 <= i < |mine| ensures mine[i].instruction == c { assert mine[i] in mine; }
  }

  lemma LastPairs(front: seq<Vertex>, last: Vertex, indexed: map<Cid, seq<Resource>>, x: seq<Pair>, z: seq<Pair>)
    requires AllIndexed(front, indexed) && last.cid in indexed
    ensures x + PairsOf(front + [last], indexed) + z
         == (x + PairsOf(front, indexed)) + (Pairs(last.cid, indexed[last.cid]) + z)
  {
    PairsOfAppend(front, last, indexed);
  }

  /** One task of the batch, the last one: what its receipts leave behind the entries of the others. */
  lemma BackwardsOne(
    t: Tables, front: seq<Vertex>, last: Vertex, indexed: map<Cid, seq<Resource>>, x: seq<Pair>, z: seq<Pair>)
    returns (w: seq<Pair>)
    requires Keyed(t) && AllIndexed(front, indexed) && last.cid in indexed
    requires NoneOf(x, last.cid) && forall j :: 0 <= j < |front| ==> front[j].cid != last.cid
    ensures w == DropAll(Pairs(last.cid, indexed[last.cid]) + z, RowsIn(t, ReceiptsFor(t, last.cid)))
    ensures DropAll(x + PairsOf(front + [last], indexed) + z, Backwards(t, front + [last]))
         == DropAll(x + PairsOf(front, indexed) + w, Backwards(t, front))
  {
    var c, mine := last.cid, RowsIn(t, ReceiptsFor(t, last.cid));
    w := DropAll(Pairs(c, indexed[c]) + z, mine);
    assert Backwards(t, front + [last]) == mine + Backwards(t, front) by {
      assert (front + [last])[..|front|] == front;
    }
    RowsAreOf(t, c);
    FrontHasNone(front, indexed, x, c);
    LastPairs(front, last, indexed, x, z);
    DropsBehindFirst(x + PairsOf(front, indexed), Pairs(c, indexed[c]) + z, mine, Backwards(t, front), c);
  }

  lemma LastTaken(t: Tables, c: Cid, rs: seq<Resource>, z: seq<Pair>)
    requires Keyed(t) && HasInstruction(t, c) && LeadsOnce(rs) && NoneOf(z, c)
    ensures (c, rs[0]) !in DropAll(Pairs(c, rs) + z, RowsIn(t, ReceiptsFor(t, c)))
  {
    var mine := RowsIn(t, ReceiptsFor(t, c));
    RowsInAre(t, ReceiptsFor(t, c));
    RowsAreOf(t, c);
    var key :| key in t.receipts && t.receipts[key].instruction == c;
    assert key in ReceiptsFor(t, c);
    TakesFirst(c, rs, z, mine);
  }

  lemma NotBehind(before: seq<Pair>, w: seq<Pair>, found: seq<Receipt>, e: Pair)
    requires NoneOf(before, e.0) && e !in w
    ensures e !in DropAll(before + w, found)
  {
    DropAllSubset(before + w, found, e);
  }

  lemma LastGone(
    t: Tables, front: seq<Vertex>, last: Vertex, indexed: map<Cid, seq<Resource>>, x: seq<Pair>, z: seq<Pair>)
    requires Keyed(t) && AllIndexed(front, indexed) && last.cid in indexed && LeadsOnce(indexed[last.cid])
    requires NoneOf(x, last.cid) && NoneOf(z, last.cid) && forall j :: 0 <= j < |front| ==> front[j].cid != last.cid
    requires HasInstruction(t, last.cid)
    ensures (last.cid, indexed[last.cid][0]) !in
              DropAll(x + PairsOf(front + [last], indexed) + z, Backwards(t, front + [last]))
  {
    var c := last.cid;
    var w := BackwardsOne(t, front, last, indexed, x, z);
    LastTaken(t, c, indexed[c], z);
    FrontHasNone(front, indexed, x, c);
    NotBehind(x + PairsOf(front, indexed), w, Backwards(t, front), (c, indexed[c][0]));
  }

  lemma FrontLeft(
    t: Tables, front: seq<Vertex>, last: Vertex, indexed: map<Cid, seq<Resource>>, x: seq<Pair>, z: seq<Pair>)
    returns (w: seq<Pair>)
    requires Keyed(t) && AllIndexed(front, indexed) && last.cid in indexed
    requires NoneOf(x, last.cid)
    requires forall j :: 0 <= j < |front| ==> front[j].cid != last.cid && NoneOf(z, front[j].cid)
    ensures forall j :: 0 <= j < |front| ==> NoneOf(w, front[j].cid)
    ensures DropAll(x + PairsOf(front + [last], indexed) + z, Backwards(t, front + [last]))
         == DropAll(x + PairsOf(front, indexed) + w, Backwards(t, front))
  {
    w := BackwardsOne(t, front, last, indexed, x, z);
    DropAllKeeps(Pairs(last.cid, indexed[last.cid]) + z, RowsIn(t, ReceiptsFor(t, last.cid)));
    SuffixHasNone(front, last, indexed, z, w);
  }

  /** Read backwards, the receipts take the first resource of every task that has one. */
  lemma {:induction false} BackwardsTakes(
    t: Tables, batch: seq<Vertex>, indexed: map<Cid, seq<Resource>>, x: seq<Pair>, z: seq<Pair>, k: nat)
    requires Keyed(t) && DistinctBatch(batch) && AllLead(batch, indexed)
    requires forall j :: 0 <= j < |batch| ==> NoneOf(x, batch[j].cid) && NoneOf(z, batch[j].cid)
    requires k < |batch| && HasInstruction(t, batch[k].cid)
    ensures (batch[k].cid, indexed[batch[k].cid][0]) !in DropAll(x + PairsOf(batch, indexed) + z, Backwards(t, batch))
  {
    var front, last := batch[..|batch| - 1], batch[|batch| - 1];
    assert batch == front + [last];
    if k == |front| {
      LastGone(t, front, last, indexed, x, z);
    } else {
      var w := FrontLeft(t, front, last, indexed, x, z);
      BackwardsTakes(t, front, indexed, x, w, k);
    }
  }

  lemma {:induction false} FrontHasNone(front: seq<Vertex>, indexed: map<Cid, seq<Resource>>, x: seq<Pair>, c: Cid)
    requires NoneOf(x, c) && forall j :: 0 <= j < |front| ==> front[j].cid != c
    ensures NoneOf(x + PairsOf(front, indexed), c)
  {
    PairsOfAre(front, indexed);
    var mine := PairsOf(front, indexed);
    forall i | 0 <= i < |mine| ensures mine[i].0 != c { assert mine[i] in mine; }
  }

  lemma {:induction false} SuffixHasNone(
    front: seq<Vertex>, last: Vertex, indexed: map<Cid, seq<Resource>>, z: seq<Pair>, w: seq<Pair>)
    requires last.cid in indexed && multiset(w) <= multiset(Pairs(last.cid, indexed[last.cid]) + z)
    requires forall j :: 0 <= j < |front| ==> front[j].cid != last.cid && NoneOf(z, front[j].cid)
    ensures forall j :: 0 <= j < |front| ==> NoneOf(w, front[j].cid)
  {
    var before := Pairs(last.cid, indexed[last.cid]) + z;
    forall j, i | 0 <= j < |front| && 0 <= i < |w| ensures w[i].0 != front[j].cid {
      assert w[i] in multiset(w) && w[i] in multiset(before);
      var k :| 0 <= k < |before| && before[k] == w[i];
    }
  }

  // ---------------------------------------------------------------------------
  // The modules
  // ---------------------------------------------------------------------------

  /** Every task has the resources compilation records for it: its module, then its links. */
  ghost predicate Compiled(schedule: seq<seq<Vertex>>, indexed: map<Cid, seq<Resource>>) {
    forall b, k :: 0 <= b < |schedule| && 0 <= k < |schedule[b]| ==>
      schedule[b][k].cid in indexed && indexed[schedule[b][k].cid] == ResourcesOf(schedule[b][k])
  }

  /** The batch is looked up and the task found to have a receipt. */
  ghost predicate Seen(t: Tables, schedule: seq<seq<Vertex>>, up: nat -> bool, b: int, k: int) {
    0 <= b < |schedule| && 0 <= k < |schedule[b]| && up(b) && HasInstruction(t, schedule[b][k].cid)
  }

  /** The module of a task no receipt is found for, from batch `from` on. */
  ghost predicate NeededModule(t: Tables, schedule: seq<seq<Vertex>>, up: nat -> bool, from: nat, url: string) {
    exists b, k :: from <= b && ModuleAt(t, schedule, up, b, k, url)
  }

  ghost predicate ModuleAt(t: Tables, schedule: seq<seq<Vertex>>, up: nat -> bool, b: int, k: int, url: string) {
    0 <= b < |schedule| && 0 <= k < |schedule[b]| && schedule[b][k].url == url && !Seen(t, schedule, up, b, k)
  }

  ghost predicate ModulesIn(run: seq<seq<Vertex>>, wanted: set<Resource>) {
    forall b, k :: 0 <= b < |run| && 0 <= k < |run[b]| ==> RUrl(run[b][k].url) in wanted
  }

  ghost function AllBackwards(t: Tables, schedule: seq<seq<Vertex>>, up: nat -> bool): seq<seq<Receipt>> {
    seq(|schedule|, b requires 0 <= b < |schedule| => if up(b) then Backwards(t, schedule[b]) else [])
  }

  lemma Leads(schedule: seq<seq<Vertex>>, indexed: map<Cid, seq<Resource>>, b: nat)
    requires Compiled(schedule, indexed) && b < |schedule|
    ensures AllLead(schedule[b], indexed)
    ensures forall k :: 0 <= k < |schedule[b]| ==> indexed[schedule[b][k].cid][0] == RUrl(schedule[b][k].url)
  {
  }

  lemma DistinctIn(schedule: seq<seq<Vertex>>, b: nat)
    requires DistinctTasks(schedule) && b < |schedule|
    ensures DistinctBatch(schedule[b])
  {
    forall i, j | 0 <= i < j < |schedule[b]| ensures schedule[b][i].cid != schedule[b][j].cid {
      assert SitsCid(schedule, b, i, schedule[b][i].cid) && SitsCid(schedule, b, j, schedule[b][j].cid);
    }
  }

  lemma AllBackwardsLooked(
    t: Tables, schedule: seq<seq<Vertex>>, indexed: map<Cid, seq<Resource>>, up: nat -> bool, from: nat)
    requires Keyed(t) && DistinctTasks(schedule) && Compiled(schedule, indexed)
    ensures Looked(t, schedule, indexed, up, from, AllBackwards(t, schedule, up))
  {
    forall b | from <= b < |schedule| ensures LookedAt(t, schedule[b], indexed, up(b), AllBackwards(t, schedule, up)[b]) {
      DistinctIn(schedule, b);
      BackwardsFinds(t, schedule[b]);
    }
  }

  lemma BatchLeaves(
    t: Tables, schedule: seq<seq<Vertex>>, indexed: map<Cid, seq<Resource>>, b: nat, k: nat, pairs: seq<Pair>)
    requires Keyed(t) && DistinctTasks(schedule) && Compiled(schedule, indexed) && b < |schedule|
    requires Within(schedule, indexed, b + 1, pairs)
    requires k < |schedule[b]| && HasInstruction(t, schedule[b][k].cid)
    ensures (schedule[b][k].cid, RUrl(schedule[b][k].url)) !in
              DropAll(pairs + PairsOf(schedule[b], indexed), Backwards(t, schedule[b]))
  {
    Leads(schedule, indexed, b);
    DistinctIn(schedule, b);
    forall j | 0 <= j < |schedule[b]| ensures NoneOf(pairs, schedule[b][j].cid) {
      PushedHere(schedule, indexed, b, j, pairs);
      EntriesZero(pairs, schedule[b][j].cid);
    }
    BackwardsTakes(t, schedule[b], indexed, pairs, [], k);
    assert pairs + PairsOf(schedule[b], indexed) + [] == pairs + PairsOf(schedule[b], indexed);
  }

  lemma NotPushed(
    schedule: seq<seq<Vertex>>, indexed: map<Cid, seq<Resource>>, from: nat, b: nat, k: nat, pairs: seq<Pair>,
    found: seq<Receipt>, r: Resource)
    requires DistinctTasks(schedule) && from < b < |schedule| && k < |schedule[b]| && (schedule[b][k].cid, r) !in pairs
    ensures (schedule[b][k].cid, r) !in DropAll(pairs + PairsOf(schedule[from], indexed), found)
  {
    var c, mine := schedule[b][k].cid, PairsOf(schedule[from], indexed);
    assert SitsCid(schedule, b, k, c);
    PushedElsewhere(schedule, indexed, from, b, k, c);
    EntriesZero(mine, c);
    DropAllSubset(pairs + mine, found, (c, r));
  }

  lemma LaterWithin(t: Tables, schedule: seq<seq<Vertex>>, indexed: map<Cid, seq<Resource>>, up: nat -> bool, b: nat)
    requires Keyed(t) && DistinctTasks(schedule) && Compiled(schedule, indexed) && b <= |schedule|
    ensures Within(schedule, indexed, b, Scanned(schedule, indexed, AllBackwards(t, schedule, up), b))
  {
    AllBackwardsLooked(t, schedule, indexed, up, b);
    ScannedIs(t, schedule, indexed, up, b, AllBackwards(t, schedule, up));
  }

  /** In that order no task with a receipt keeps its module. */
  lemma {:induction false} BackwardsLeaves(
    t: Tables, schedule: seq<seq<Vertex>>, indexed: map<Cid, seq<Resource>>, up: nat -> bool, from: nat,
    b: nat, k: nat)
    requires Keyed(t) && DistinctTasks(schedule) && Compiled(schedule, indexed)
    requires from <= b && Seen(t, schedule, up, b, k)
    ensures (schedule[b][k].cid, RUrl(schedule[b][k].url)) !in
              Scanned(schedule, indexed, AllBackwards(t, schedule, up), from)
    decreases |schedule| - from
  {
    var rows := AllBackwards(t, schedule, up);
    var pairs := Scanned(schedule, indexed, rows, from + 1);
    if b == from {
      LaterWithin(t, schedule, indexed, up, from + 1);
      BatchLeaves(t, schedule, indexed, b, k, pairs);
    } else {
      BackwardsLeaves(t, schedule, indexed, up, from + 1, b, k);
      NotPushed(schedule, indexed, from, b, k, pairs, rows[from], RUrl(schedule[b][k].url));
    }
  }

  /** A module that only receipted tasks use is not fetched in that order. */
  lemma BackwardsUnfetched(
    t: Tables, schedule: seq<seq<Vertex>>, indexed: map<Cid, seq<Resource>>, up: nat -> bool, from: nat, url: string)
    requires Keyed(t) && DistinctTasks(schedule) && Compiled(schedule, indexed) && from <= |schedule|
    requires !NeededModule(t, schedule, up, from, url)
    ensures RUrl(url) !in WantedIn(Scanned(schedule, indexed, AllBackwards(t, schedule, up), from))
  {
    var rows := AllBackwards(t, schedule, up);
    var pairs := Scanned(schedule, indexed, rows, from);
    AllBackwardsLooked(t, schedule, indexed, up, from);
    ScannedIs(t, schedule, indexed, up, from, rows);
    WantedIs(pairs, RUrl(url));
    forall c ensures (c, RUrl(url)) !in pairs {
      if (c, RUrl(url)) in pairs {
        var b, k :| from <= b && SitsCid(schedule, b, k, (c, RUrl(url)).0);
        assert RUrl(url) in ResourcesOf(schedule[b][k]);
        assert schedule[b][k].url == url;
        assert !ModuleAt(t, schedule, up, b, k, url);
        BackwardsLeaves(t, schedule, indexed, up, from, b, k);
      }
    }
  }

  /**
   Every task left to run has its module fetched in whatever order rows come, if and only if
   each one found to have a receipt shares its module with a task no receipt is found for, at
   or after the pivot. Tasks may have any links and receipts, and lookups may fail.
   */
  lemma ModulesFetchedExactly(
    t: Tables, schedule: seq<seq<Vertex>>, indexed: map<Cid, seq<Resource>>, up: nat -> bool, from: nat,
    run: seq<seq<Vertex>>, n: nat)
    requires Keyed(t) && DistinctTasks(schedule) && Compiled(schedule, indexed)
    requires from <= n <= |schedule| && run == schedule[n..]
    ensures (forall rows :: Looked(t, schedule, indexed, up, from, rows) ==>
               ModulesIn(run, WantedIn(Scanned(schedule, indexed, rows, from))))
            <==>
            (forall b, k :: 0 <= b < |run| && 0 <= k < |run[b]| && Seen(t, schedule, up, n + b, k) ==>
               NeededModule(t, schedule, up, from, run[b][k].url))
  {
    if forall b, k :: 0 <= b < |run| && 0 <= k < |run[b]| && Seen(t, schedule, up, n + b, k) ==>
         NeededModule(t, schedule, up, from, run[b][k].url)
    {
      forall rows, b, k | Looked(t, schedule, indexed, up, from, rows) && 0 <= b < |run| && 0 <= k < |run[b]|
        ensures RUrl(run[b][k].url) in WantedIn(Scanned(schedule, indexed, rows, from))
      {
        NeededFetched(t, schedule, indexed, up, from, rows, n + b, k);
      }
    } else {
      var b, k :| 0 <= b < |run| && 0 <= k < |run[b]| && Seen(t, schedule, up, n + b, k)
                  && !NeededModule(t, schedule, up, from, run[b][k].url);
      AllBackwardsLooked(t, schedule, indexed, up, from);
      BackwardsUnfetched(t, schedule, indexed, up, from, run[b][k].url);
      assert !ModulesIn(run, WantedIn(Scanned(schedule, indexed, AllBackwards(t, schedule, up), from)));
    }
  }

  lemma NeededFetched(
    t: Tables, schedule: seq<seq<Vertex>>, indexed: map<Cid, seq<Resource>>, up: nat -> bool, from: nat,
    rows: seq<seq<Receipt>>, b: nat, k: nat)
    requires Keyed(t) && DistinctTasks(schedule) && Compiled(schedule, indexed)
    requires Looked(t, schedule, indexed, up, from, rows)
    requires from <= b < |schedule| && k < |schedule[b]|
    requires Seen(t, schedule, up, b, k) ==> NeededModule(t, schedule, up, from, schedule[b][k].url)
    ensures RUrl(schedule[b][k].url) in WantedIn(Scanned(schedule, indexed, rows, from))
  {
    var url := schedule[b][k].url;
    assert NeededModule(t, schedule, up, from, url) by {
      if !Seen(t, schedule, up, b, k) { assert ModuleAt(t, schedule, up, b, k, url); }
    }
    var b': int, k': int :| from <= b' && ModuleAt(t, schedule, up, b', k', url);
    assert ModuleAt(t, schedule, up, b', k', url);
    FetchCoverage(t, schedule, indexed, up, from, rows);
    var c := schedule[b'][k'].cid;
    assert SitsCid(schedule, b', k', c);
    Leads(schedule, indexed, b');
    assert indexed[c][0] == RUrl(url);
    assert RUrl(url) in indexed[c];
  }

  // ---------------------------------------------------------------------------
  // Links, and resources of any kind
  // ---------------------------------------------------------------------------

  /** A resource of a task no receipt is found for, from batch `from` on. */
  ghost predicate Needed(
    t: Tables, schedule: seq<seq<Vertex>>, indexed: map<Cid, seq<Resource>>, up: nat -> bool, from: nat, r: Resource)
  {
    exists b, k :: from <= b && NeededAt(t, schedule, indexed, up, b, k, r)
  }

  ghost predicate NeededAt(
    t: Tables, schedule: seq<seq<Vertex>>, indexed: map<Cid, seq<Resource>>, up: nat -> bool, b: int, k: int, r: Resource)
  {
    && 0 <= b < |schedule| && 0 <= k < |schedule[b]| && !Seen(t, schedule, up, b, k)
    && schedule[b][k].cid in indexed && r in indexed[schedule[b][k].cid]
  }

  /** What receipts may take from a task left to run, and satisfies `p`, is needed by a task they take nothing from. */
  ghost predicate Shared(
    t: Tables, schedule: seq<seq<Vertex>>, indexed: map<Cid, seq<Resource>>, up: nat -> bool, from: nat, n: nat,
    p: Resource -> bool)
  {
    forall b, k, r :: n <= b && Seen(t, schedule, up, b, k) && schedule[b][k].cid in indexed
                      && r in indexed[schedule[b][k].cid] && p(r) ==>
      Needed(t, schedule, indexed, up, from, r)
  }

  /** Needed resources are fetched, in whatever order rows come. */
  lemma NeededWanted(
    t: Tables, schedule: seq<seq<Vertex>>, indexed: map<Cid, seq<Resource>>, up: nat -> bool, from: nat,
    rows: seq<seq<Receipt>>, r: Resource)
    requires Keyed(t) && DistinctTasks(schedule) && Compiled(schedule, indexed) && from <= |schedule|
    requires Looked(t, schedule, indexed, up, from, rows) && Needed(t, schedule, indexed, up, from, r)
    ensures r in WantedIn(Scanned(schedule, indexed, rows, from))
  {
    var b: int, k: int :| from <= b && NeededAt(t, schedule, indexed, up, b, k, r);
    FetchCoverage(t, schedule, indexed, up, from, rows);
    assert SitsCid(schedule, b, k, schedule[b][k].cid);
  }

  /** Sharing is enough: with it every task left to run has these resources, in whatever order rows come. */
  lemma SharedFetched(
    t: Tables, schedule: seq<seq<Vertex>>, indexed: map<Cid, seq<Resource>>, up: nat -> bool, from: nat,
    rows: seq<seq<Receipt>>, run: seq<seq<Vertex>>, n: nat, p: Resource -> bool)
    requires Keyed(t) && DistinctTasks(schedule) && Compiled(schedule, indexed)
    requires from <= n <= |schedule| && run == schedule[n..] && Looked(t, schedule, indexed, up, from, rows)
    requires Shared(t, schedule, indexed, up, from, n, p)
    ensures AllFetched(run, indexed, WantedIn(Scanned(schedule, indexed, rows, from)), p)
  {
    forall c, r | InFrom(run, 0, c) && c in indexed && r in indexed[c] && p(r)
      ensures r in WantedIn(Scanned(schedule, indexed, rows, from))
    {
      var b, k :| 0 <= b && SitsCid(run, b, k, c);
      assert schedule[n + b] == run[b];
      if !Seen(t, schedule, up, n + b, k) { assert NeededAt(t, schedule, indexed, up, n + b, k, r); }
      NeededWanted(t, schedule, indexed, up, from, rows, r);
    }
  }

  /**
   Where a task that has receipts has as many as it has resources, so loses all of them, sharing
   is also what it takes: the resources are fetched if and only if they are shared.
   */
  lemma LostFetchedExactly(
    t: Tables, schedule: seq<seq<Vertex>>, indexed: map<Cid, seq<Resource>>, up: nat -> bool, from: nat,
    rows: seq<seq<Receipt>>, run: seq<seq<Vertex>>, n: nat, p: Resource -> bool)
    requires Keyed(t) && DistinctTasks(schedule) && Compiled(schedule, indexed)
    requires from <= n <= |schedule| && run == schedule[n..] && Looked(t, schedule, indexed, up, from, rows)
    requires forall b, k :: from <= b && Seen(t, schedule, up, b, k) ==>
               |indexed[schedule[b][k].cid]| <= |ReceiptsFor(t, schedule[b][k].cid)|
    ensures AllFetched(run, indexed, WantedIn(Scanned(schedule, indexed, rows, from)), p)
            <==> Shared(t, schedule, indexed, up, from, n, p)
  {
    var pairs := Scanned(schedule, indexed, rows, from);
    if Shared(t, schedule, indexed, up, from, n, p) {
      SharedFetched(t, schedule, indexed, up, from, rows, run, n, p);
    }
    if AllFetched(run, indexed, WantedIn(pairs), p) {
      forall b, k, r | n <= b && Seen(t, schedule, up, b, k) && schedule[b][k].cid in indexed
                       && r in indexed[schedule[b][k].cid] && p(r)
        ensures Needed(t, schedule, indexed, up, from, r)
      {
        assert run[b - n] == schedule[b];
        assert SitsCid(run, b - n, k, schedule[b][k].cid);
        KeptIsNeeded(t, schedule, indexed, up, from, rows, r);
      }
    }
  }

  lemma KeptIsNeeded(
    t: Tables, schedule: seq<seq<Vertex>>, indexed: map<Cid, seq<Resource>>, up: nat -> bool, from: nat,
    rows: seq<seq<Receipt>>, r: Resource)
    requires Keyed(t) && DistinctTasks(schedule) && Compiled(schedule, indexed) && from <= |schedule|
    requires Looked(t, schedule, indexed, up, from, rows)
    requires forall b, k :: from <= b && Seen(t, schedule, up, b, k) ==>
               |indexed[schedule[b][k].cid]| <= |ReceiptsFor(t, schedule[b][k].cid)|
    requires r in WantedIn(Scanned(schedule, indexed, rows, from))
    ensures Needed(t, schedule, indexed, up, from, r)
  {
    var pairs := Scanned(schedule, indexed, rows, from);
    WantedIs(pairs, r);
    ScannedIs(t, schedule, indexed, up, from, rows);
    ScanCounts(t, schedule, indexed, up, from, rows);
    var c :| (c, r) in pairs;
    var b, k :| from <= b && SitsCid(schedule, b, k, (c, r).0);
    assert !Seen(t, schedule, up, b, k) by { EntriesZero(pairs, c); }
    assert NeededAt(t, schedule, indexed, up, b, k, r);
  }
}
