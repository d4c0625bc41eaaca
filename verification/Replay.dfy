/**
 Replaying the receipts of the tasks a resumed workflow skips: the rows come from the
 database in any order and are sorted by the position of their pointer.
 */
module Replay {
  import opened Wrappers
  import opened IpldModel
  import opened Workflows
  import opened Database
  import opened Scheduler
  import opened Resume

  function Instructions(rs: seq<Receipt>): seq<Cid> {
    seq(|rs|, k requires 0 <= k < |rs| => rs[k].instruction)
  }

  /** Position of the first pointer that equals the CID; the number of pointers if there is none. */
  function Position(ps: seq<Cid>, c: Cid): nat {
    if ps == [] || ps[0] == c then 0 else 1 + Position(ps[1..], c)
  }

  lemma {:induction false} PositionIs(ps: seq<Cid>, c: Cid)
    ensures Position(ps, c) <= |ps|
    ensures c in ps ==> Position(ps, c) < |ps| && ps[Position(ps, c)] == c
    ensures forall j :: 0 <= j < |ps| && ps[j] == c ==> Position(ps, c) <= j
  {
    if ps != [] && ps[0] != c { PositionIs(ps[1..], c); }
  }

  function Key(ps: seq<Cid>): Cid -> nat {
    (c: Cid) => Position(ps, c)
  }

  ghost predicate Sorted(key: Cid -> nat, cs: seq<Cid>) {
    forall i, j :: 0 <= i < j < |cs| ==> key(cs[i]) <= key(cs[j])
  }

  /** The rows of one instruction, in order. */
  ghost function Of(rs: seq<Receipt>, c: Cid): seq<Receipt> {
    if rs == [] then []
    else
      var front, last := rs[..|rs| - 1], rs[|rs| - 1];
      if last.instruction == c then Of(front, c) + [last] else Of(front, c)
  }

  /** Put a row behind the rows whose key is not greater. */
  function Insert(key: Cid -> nat, sorted: seq<Receipt>, r: Receipt): seq<Receipt> {
    if sorted == [] || key(sorted[|sorted| - 1].instruction) <= key(r.instruction) then sorted + [r]
    else Insert(key, sorted[..|sorted| - 1], r) + [sorted[|sorted| - 1]]
  }

  lemma OfAppend(front: seq<Receipt>, r: Receipt, c: Cid)
    ensures Of(front + [r], c) == if r.instruction == c then Of(front, c) + [r] else Of(front, c)
  {
    assert (front + [r])[..|front|] == front;
  }

  lemma {:induction false} InsertSame(key: Cid -> nat, sorted: seq<Receipt>, r: Receipt)
    ensures multiset(Insert(key, sorted, r)) == multiset(sorted) + multiset{r}
  {
    if sorted != [] && key(sorted[|sorted| - 1].instruction) > key(r.instruction) {
      InsertSame(key, sorted[..|sorted| - 1], r);
      assert sorted == sorted[..|sorted| - 1] + [sorted[|sorted| - 1]];
    }
  }

  lemma {:induction false} InsertSorted(key: Cid -> nat, sorted: seq<Receipt>, r: Receipt, top: nat)
    requires Sorted(key, Instructions(sorted))
    requires forall k :: 0 <= k < |sorted| ==> key(sorted[k].instruction) <= top
    ensures Sorted(key, Instructions(Insert(key, sorted, r)))
    ensures key(r.instruction) <= top ==>
              forall k :: 0 <= k < |Insert(key, sorted, r)| ==> key(Insert(key, sorted, r)[k].instruction) <= top
  {
    var cs := Instructions(sorted);
    if sorted != [] {
      var front, last := sorted[..|sorted| - 1], sorted[|sorted| - 1];
      assert Instructions(front) == cs[..|front|] && cs[|front|] == last.instruction;
      forall k | 0 <= k < |front|
        ensures key(front[k].instruction) <= key(last.instruction)
      {
        assert cs[k] == front[k].instruction;
      }
      if key(last.instruction) > key(r.instruction) {
        InsertSorted(key, front, r, key(last.instruction));
        var inner := Insert(key, front, r);
        assert Instructions(inner + [last]) == Instructions(inner) + [last.instruction];
      } else {
        assert Instructions(sorted + [r]) == cs + [r.instruction];
      }
    }
  }

  /** Sorting keeps the order of the rows of one instruction. */
  lemma {:induction false} InsertStable(key: Cid -> nat, sorted: seq<Receipt>, r: Receipt, c: Cid)
    ensures Of(Insert(key, sorted, r), c) == Of(sorted + [r], c)
  {
    if sorted != [] && key(sorted[|sorted| - 1].instruction) > key(r.instruction) {
      var front, last := sorted[..|sorted| - 1], sorted[|sorted| - 1];
      InsertStable(key, front, r, c);
      OfAppend(Insert(key, front, r), last, c);
      OfAppend(front, r, c);
      OfAppend(sorted, r, c);
    }
  }

  /** The rows that are emitted: those found, sorted by position, rows of one instruction in the order found. */
  method Notify(db: Db, pointers: seq<Cid>) returns (emitted: seq<Receipt>, ghost found: seq<Receipt>)
    requires db.Valid()
    ensures Finds(db.View(), pointers, found)
    ensures multiset(emitted) == multiset(found)
    ensures Sorted(Key(pointers), Instructions(emitted))
    ensures forall c :: Of(emitted, c) == Of(found, c)
    ensures Distinct(pointers) ==>
              (Instructions(emitted) == pointers <==> forall c :: c in pointers ==> OneReceipt(db.View(), c))
  {
    var rows := db.FindInstructionPointers(pointers);
    found := rows;
    var key := Key(pointers);
    emitted := [];
    for k := 0 to |rows|
      invariant multiset(emitted) == multiset(rows[..k])
      invariant Sorted(key, Instructions(emitted))
      invariant forall c :: Of(emitted, c) == Of(rows[..k], c)
    {
      assert rows[..k + 1] == rows[..k] + [rows[k]];
      InsertSame(key, emitted, rows[k]);
      InsertSorted(key, emitted, rows[k], Bound(key, emitted));
      forall c
        ensures Of(Insert(key, emitted, rows[k]), c) == Of(rows[..k + 1], c)
      {
        InsertStable(key, emitted, rows[k], c);
        OfAppend(emitted, rows[k], c);
        OfAppend(rows[..k], rows[k], c);
      }
      emitted := Insert(key, emitted, rows[k]);
    }
    assert rows[..|rows|] == rows;
    RowsAre(db.receipts);
    if Distinct(pointers) { ReplayInOrder(db.View(), pointers, rows, emitted); }
  }

  ghost function Bound(key: Cid -> nat, rs: seq<Receipt>): (top: nat)
    ensures forall k :: 0 <= k < |rs| ==> key(rs[k].instruction) <= top
  {
    if rs == [] then 0
    else
      var rest, mine := Bound(key, rs[1..]), key(rs[0].instruction);
      if mine <= rest then rest else mine
  }

  // ---------------------------------------------------------------------------
  // When the order is that of the pointers
  // ---------------------------------------------------------------------------

  /** Equal pointers stand side by side. */
  ghost predicate Grouped(ps: seq<Cid>) {
    forall i, j, k :: 0 <= i < j < k < |ps| && ps[i] == ps[k] ==> ps[j] == ps[i]
  }

  lemma GroupedIsSorted(ps: seq<Cid>)
    ensures Grouped(ps) <==> Sorted(Key(ps), ps)
  {
    var key := Key(ps);
    if Grouped(ps) {
      forall i, j | 0 <= i < j < |ps| ensures key(ps[i]) <= key(ps[j]) { GroupedAscends(ps, i, j); }
    }
    if Sorted(key, ps) {
      forall i, j, k | 0 <= i < j < k < |ps| && ps[i] == ps[k]
        ensures ps[j] == ps[i]
      {
        assert key(ps[i]) <= key(ps[j]) && key(ps[j]) <= key(ps[k]);
        SamePosition(ps, ps[i], ps[j]);
      }
    }
  }

  lemma GroupedAscends(ps: seq<Cid>, i: nat, j: nat)
    requires Grouped(ps) && i < j < |ps|
    ensures Position(ps, ps[i]) <= Position(ps, ps[j])
  {
    PositionIs(ps, ps[i]);
    PositionIs(ps, ps[j]);
    var f := Position(ps, ps[j]);
    assert f < i ==> ps[f] == ps[j] == ps[i];
  }

  lemma SamePosition(ps: seq<Cid>, c: Cid, d: Cid)
    requires c in ps && d in ps && Position(ps, c) == Position(ps, d)
    ensures c == d
  {
    PositionIs(ps, c);
    PositionIs(ps, d);
  }

  lemma HeadLeast(key: Cid -> nat, a: seq<Cid>, c: Cid)
    requires Sorted(key, a) && c in a
    ensures key(a[0]) <= key(c)
  {
    var i :| 0 <= i < |a| && a[i] == c;
  }

  lemma Uncons(a: seq<Cid>)
    requires a != []
    ensures multiset(a) == multiset{a[0]} + multiset(a[1..])
    ensures multiset(a[1..]) == multiset(a) - multiset{a[0]}
  {
    assert a == [a[0]] + a[1..];
  }

  lemma SortedTail(key: Cid -> nat, a: seq<Cid>)
    requires a != [] && Sorted(key, a)
    ensures Sorted(key, a[1..])
  {
  }

  ghost predicate TellsApart(key: Cid -> nat, cs: set<Cid>) {
    forall c, d :: c in cs && d in cs && key(c) == key(d) ==> c == d
  }

  /** Two sequences sorted by a key that tells their elements apart are the same if their elements are. */
  lemma {:induction false} SortedUnique(key: Cid -> nat, cs: set<Cid>, a: seq<Cid>, b: seq<Cid>)
    requires Sorted(key, a) && Sorted(key, b) && multiset(a) == multiset(b)
    requires TellsApart(key, cs) && forall k :: 0 <= k < |a| ==> a[k] in cs
    ensures a == b
  {
    assert |a| == |multiset(a)| == |b|;
    if a != [] {
      assert a[0] in multiset(b) && b[0] in multiset(a);
      HeadLeast(key, a, b[0]);
      HeadLeast(key, b, a[0]);
      assert a[0] == b[0];
      Uncons(a);
      Uncons(b);
      SortedTail(key, a);
      SortedTail(key, b);
      SortedUnique(key, cs, a[1..], b[1..]);
    }
  }

  lemma InstructionsCount(rs: seq<Receipt>, c: Cid)
    ensures multiset(Instructions(rs))[c] == |Of(rs, c)|
  {
    if rs != [] {
      var front, last := rs[..|rs| - 1], rs[|rs| - 1];
      InstructionsCount(front, c);
      assert Instructions(rs) == Instructions(front) + [last.instruction];
    }
  }

  /**
   The receipts come out in the order of the pointers exactly when equal pointers stand
   together and each has as many receipts as it has pointers.
   */
  lemma ReplayExactly(pointers: seq<Cid>, found: seq<Receipt>, emitted: seq<Receipt>)
    requires forall r :: r in found ==> r.instruction in pointers
    requires Sorted(Key(pointers), Instructions(emitted)) && forall c :: Of(emitted, c) == Of(found, c)
    ensures Instructions(emitted) == pointers
            <==> Grouped(pointers) && multiset(Instructions(found)) == multiset(pointers)
  {
    assert multiset(Instructions(emitted)) == multiset(Instructions(found)) by {
      forall c
        ensures multiset(Instructions(emitted))[c] == multiset(Instructions(found))[c]
      {
        InstructionsCount(emitted, c);
        InstructionsCount(found, c);
      }
    }
    GroupedIsSorted(pointers);
    if Grouped(pointers) && multiset(Instructions(found)) == multiset(pointers) {
      var cs := set c | c in pointers;
      forall c, d | c in cs && d in cs && Key(pointers)(c) == Key(pointers)(d)
        ensures c == d
      {
        SamePosition(pointers, c, d);
      }
      SortedUnique(Key(pointers), cs, pointers, Instructions(emitted));
    }
  }

  ghost predicate Distinct(ps: seq<Cid>) {
    forall i, j :: 0 <= i < j < |ps| ==> ps[i] != ps[j]
  }

  lemma {:induction false} DistinctCount(ps: seq<Cid>, c: Cid)
    requires Distinct(ps)
    ensures multiset(ps)[c] == if c in ps then 1 else 0
  {
    if ps != [] {
      DistinctCount(ps[1..], c);
      Uncons(ps);
    }
  }

  lemma {:induction false} OfIs(rs: seq<Receipt>, c: Cid)
    requires DistinctRows(rs)
    ensures forall r :: r in Of(rs, c) <==> r in rs && r.instruction == c
    ensures DistinctRows(Of(rs, c))
  {
    if rs != [] {
      var front, last := rs[..|rs| - 1], rs[|rs| - 1];
      OfIs(front, c);
      assert rs == front + [last];
      forall r | r in front
        ensures r.cid != last.cid
      {
      }
    }
  }

  lemma RowCount(t: Tables, pointers: seq<Cid>, found: seq<Receipt>, c: Cid)
    requires Keyed(t) && Finds(t, pointers, found)
    ensures |Of(found, c)| == if c in pointers then |ReceiptsFor(t, c)| else 0
  {
    var rows := Of(found, c);
    OfIs(found, c);
    if rows != [] { assert rows[0] in rows; }
    if c in pointers {
      forall x ensures x in ReceiptsFor(t, c) <==> exists k :: 0 <= k < |rows| && rows[k].cid == x {
        if x in ReceiptsFor(t, c) { assert t.receipts[x] in rows; }
        if k :| 0 <= k < |rows| && rows[k].cid == x { assert rows[k] in rows; }
      }
      Scheduler.DistinctCount(rows, ReceiptsFor(t, c));
    }
  }

  /** With distinct pointers, the order is theirs exactly when each has exactly one stored receipt. */
  lemma ReplayInOrder(t: Tables, pointers: seq<Cid>, found: seq<Receipt>, emitted: seq<Receipt>)
    requires Keyed(t) && Finds(t, pointers, found) && Distinct(pointers)
    requires Sorted(Key(pointers), Instructions(emitted)) && forall c :: Of(emitted, c) == Of(found, c)
    ensures Instructions(emitted) == pointers <==> forall c :: c in pointers ==> OneReceipt(t, c)
  {
    ReplayExactly(pointers, found, emitted);
    var have := multiset(Instructions(found));
    forall c
      ensures have[c] == multiset(pointers)[c] <==> (c in pointers ==> OneReceipt(t, c))
    {
      InstructionsCount(found, c);
      DistinctCount(pointers, c);
      RowCount(t, pointers, found, c);
    }
    assert have == multiset(pointers) <==> forall c :: have[c] == multiset(pointers)[c];
  }

  // ---------------------------------------------------------------------------
  // The tasks that are skipped
  // ---------------------------------------------------------------------------

  /** Their instructions, batch by batch. */
  ghost function PointersOf(ran: seq<seq<Vertex>>): seq<Cid> {
    if ran == [] then [] else PointersOf(ran[..|ran| - 1]) + Cids(ran[|ran| - 1])
  }

  method Gather(ran: seq<seq<Vertex>>) returns (pointers: seq<Cid>)
    ensures pointers == PointersOf(ran)
  {
    pointers := [];
    for b := 0 to |ran|
      invariant pointers == PointersOf(ran[..b])
    {
      assert ran[..b + 1][..b] == ran[..b];
      for k := 0 to |ran[b]|
        invariant pointers == PointersOf(ran[..b]) + Cids(ran[b])[..k]
      {
        pointers := pointers + [ran[b][k].cid];
      }
    }
    assert ran[..|ran|] == ran;
  }

  /** How many tasks the batches before batch `b` have. */
  ghost function TasksBefore(ran: seq<seq<Vertex>>, b: nat): nat
    requires b <= |ran|
  {
    if b == 0 then 0 else TasksBefore(ran, b - 1) + |ran[b - 1]|
  }

  /** The pointers name the skipped tasks one by one, in the order of the batches and of the tasks in each. */
  lemma {:induction false} PointersInOrder(ran: seq<seq<Vertex>>, n: nat, b: nat, k: nat)
    requires b < n <= |ran| && k < |ran[b]|
    ensures |PointersOf(ran[..n])| == TasksBefore(ran, n)
    ensures TasksBefore(ran, b) + k < TasksBefore(ran, n)
    ensures PointersOf(ran[..n])[TasksBefore(ran, b) + k] == ran[b][k].cid
    decreases n
  {
    assert ran[..n][..n - 1] == ran[..n - 1] && ran[..n][n - 1] == ran[n - 1];
    CountedBefore(ran, n - 1);
    if b < n - 1 { PointersInOrder(ran, n - 1, b, k); }
  }

  lemma {:induction false} CountedBefore(ran: seq<seq<Vertex>>, n: nat)
    requires n <= |ran|
    ensures |PointersOf(ran[..n])| == TasksBefore(ran, n)
  {
    if n > 0 {
      CountedBefore(ran, n - 1);
      assert ran[..n][..n - 1] == ran[..n - 1] && ran[..n][n - 1] == ran[n - 1];
    }
  }

  lemma {:induction false} PointersAre(ran: seq<seq<Vertex>>, c: Cid)
    ensures c in PointersOf(ran) <==> exists b :: 0 <= b < |ran| && c in Cids(ran[b])
  {
    if ran != [] { PointersAre(ran[..|ran| - 1], c); }
  }

  /**
   When no skipped task has two receipts, they are replayed in order exactly when
   all of them have one. The pivot's do; those of earlier batches may not.
   */
  lemma SkippedInOrder(t: Tables, ran: seq<seq<Vertex>>)
    requires OneReceiptEach(t, ran)
    ensures (forall c :: c in PointersOf(ran) ==> OneReceipt(t, c)) <==> forall b :: 0 <= b < |ran| ==> Receipted(t, ran[b])
  {
    forall c | c in PointersOf(ran) ensures OneReceipt(t, c) <==> HasInstruction(t, c) {
      PointersAre(ran, c);
      var b :| 0 <= b < |ran| && c in Cids(ran[b]);
      var k :| 0 <= k < |ran[b]| && Cids(ran[b])[k] == c;
      assert AtMostOne(t, ran[b][k].cid);
      ReceiptsAre(t, c);
    }
    if forall c :: c in PointersOf(ran) ==> HasInstruction(t, c) {
      forall b, k | 0 <= b < |ran| && 0 <= k < |ran[b]|
        ensures HasInstruction(t, ran[b][k].cid)
      {
        assert Cids(ran[b])[k] == ran[b][k].cid;
        PointersAre(ran, ran[b][k].cid);
      }
    }
    if forall b :: 0 <= b < |ran| ==> Receipted(t, ran[b]) {
      forall c | c in PointersOf(ran)
        ensures HasInstruction(t, c)
      {
        PointersAre(ran, c);
        var b :| 0 <= b < |ran| && c in Cids(ran[b]);
        var k :| 0 <= k < |ran[b]| && Cids(ran[b])[k] == c;
      }
    }
  }

  /** A skipped task without a receipt: the last batch is found finished, and the first is never looked at. */
  lemma SkippedUnreceipted(a: Vertex, b: Vertex, r: Receipt, indexed: map<Cid, seq<Resource>>)
    requires a.cid != b.cid && r.instruction == b.cid && a.cid in indexed && b.cid in indexed
    ensures var t := Tables(map[r.cid := r], {}, {});
            var s := TaskScheduler(map[b.cid := OutputAsArg(r)], Some([[a], [b]]), [], None, map[]);
            Resumes(t, [[a], [b]], indexed, n => true, s) && OneReceiptEach(t, [[a], [b]]) && !Receipted(t, [a])
  {
    var t := Tables(map[r.cid := r], {}, {});
    assert Cids([b]) == [b.cid] && Cids([a]) == [a.cid];
    assert Matching(t, [b]) == {r.cid};
    assert [[a], [b]] + [] == [[a], [b]];
    assert ReceiptsFor(t, a.cid) == {} && ReceiptsFor(t, b.cid) == {r.cid};
    assert [a][0] == a;
    assert r.cid in t.receipts;
  }
}
