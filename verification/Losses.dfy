/**
 Which resources the receipts of a batch take from the vector, over every order the
 database may return them in: the exact condition, on the schedule and the tables alone.
 */
module Losses {
  import opened IpldModel
  import opened Workflows
  import opened Database
  import opened Scheduler
  import opened Resume
  import opened Fetching

  // ---------------------------------------------------------------------------
  // Removals from a vector
  // ---------------------------------------------------------------------------

  lemma {:induction false} DropLength(orig: seq<Pair>, found: seq<Receipt>)
    ensures |orig| - |found| <= |DropAll(orig, found)| <= |orig|
  {
    if found != [] { DropLength(orig, found[..|found| - 1]); }
  }

  /** An entry no receipt names stays where it is until the end of the vector passes it. */
  lemma {:induction false} Unmoved(orig: seq<Pair>, found: seq<Receipt>, q: nat)
    requires q < |orig| && !Names(found, orig[q].0)
    ensures q < |DropAll(orig, found)| ==> DropAll(orig, found)[q] == orig[q]
  {
    if found != [] {
      NamesMore(found, orig[q].0);
      Unmoved(orig, found[..|found| - 1], q);
      DropLength(orig, found[..|found| - 1]);
    }
  }

  /** A beginning of the vector that no receipt names stays. */
  lemma {:induction false} PrefixKept(orig: seq<Pair>, found: seq<Receipt>, e: nat)
    requires e <= |orig| && forall q :: 0 <= q < e ==> !Names(found, orig[q].0)
    ensures |DropAll(orig, found)| >= e && DropAll(orig, found)[..e] == orig[..e]
  {
    if found != [] {
      var front, d := found[..|found| - 1], found[|found| - 1].instruction;
      forall q | 0 <= q < e ensures !Names(front, orig[q].0) && orig[q].0 != d { NamesMore(found, orig[q].0); }
      PrefixKept(orig, front, e);
      var mid := DropAll(orig, front);
      assert forall q :: 0 <= q < e ==> mid[q] == mid[..e][q];
    }
  }

  ghost predicate EachOnce(found: seq<Receipt>) {
    forall i, j :: 0 <= i < j < |found| ==> found[i].instruction != found[j].instruction
  }

  ghost predicate Holds(pairs: seq<Pair>, c: Cid) {
    exists q :: 0 <= q < |pairs| && pairs[q].0 == c
  }

  /** Receipts of different tasks that have entries take one each. */
  lemma {:induction false} Shrinks(orig: seq<Pair>, found: seq<Receipt>)
    requires EachOnce(found) && forall i :: 0 <= i < |found| ==> Holds(orig, found[i].instruction)
    ensures |DropAll(orig, found)| == |orig| - |found|
  {
    if found != [] {
      var front, d := found[..|found| - 1], found[|found| - 1].instruction;
      Shrinks(orig, front);
      assert !Names(front, d);
      assert Holds(orig, d);
      DropAllEntries(orig, front, d);
      TimesZero(front, d);
      EntriesZero(orig, d);
      EntriesZero(DropAll(orig, front), d);
    }
  }

  lemma {:induction false} PairCount(orig: seq<Pair>, found: seq<Receipt>, e: Pair)
    ensures multiset(DropAll(orig, found))[e] + Times(found, e.0) >= multiset(orig)[e]
  {
    if found != [] {
      var front, d := found[..|found| - 1], found[|found| - 1].instruction;
      var mid := DropAll(orig, front);
      PairCount(orig, front, e);
      if Holds(mid, d) { SwapRemoveTakes(mid, First(mid, d)); }
    }
  }

  /** The entries of the task are those from position `a` on, `n` of them. */
  ghost predicate Block(orig: seq<Pair>, c: Cid, a: nat, n: nat) {
    && a + n <= |orig|
    && forall q :: 0 <= q < |orig| ==> (orig[q].0 == c <==> a <= q < a + n)
  }

  /** And these are the resources they are for. */
  ghost predicate Lists(orig: seq<Pair>, a: nat, rs: seq<Resource>) {
    a + |rs| <= |orig| && forall q :: a <= q < a + |rs| ==> orig[q].1 == rs[q - a]
  }

  lemma OtherStays<T>(v: seq<T>, p: nat, f: nat)
    requires p < |v| && f < |v| && p != f
    ensures v[p] in SwapRemove(v, f)
  {
    assert SwapRemove(v, f)[if p == |v| - 1 then f else p] == v[p];
  }

  lemma {:induction false} DropAllThree(orig: seq<Pair>, x: seq<Receipt>, own: Receipt, y: seq<Receipt>)
    ensures DropAll(orig, x + [own] + y) == DropAll(Drop(DropAll(orig, x), own.instruction), y)
  {
    DropAllAppend(orig, x + [own], y);
    DropOne(x, orig, own);
  }

  /**
   An entry behind the first of its task stays if its own receipt comes while the end of
   the vector is still behind it, or if nothing in front of the task's entries is taken before.
   */
  lemma KeptInside(
    orig: seq<Pair>, c: Cid, a: nat, n: nat, j: nat, x: seq<Receipt>, own: Receipt, y: seq<Receipt>)
    requires Block(orig, c, a, n) && 1 <= j < n && own.instruction == c && !Names(x, c) && !Names(y, c)
    requires |x| <= |orig| - 1 - (a + j) || forall q :: 0 <= q < a ==> !Names(x, orig[q].0)
    ensures orig[a + j] in DropAll(orig, x + [own] + y)
  {
    var v, p := DropAll(orig, x), a + j;
    assert a + j < |v| && v[a] == orig[a] && v[p] == orig[p] by {
      DropLength(orig, x);
      Unmoved(orig, x, a);
      Unmoved(orig, x, p);
      if |x| > |orig| - 1 - p { PrefixKept(orig, x, a + n); }
    }
    assert v[a].0 == c;
    OtherStays(v, p, First(v, c));
    DropAllThree(orig, x, own, y);
    DropAllKeeps(Drop(v, c), y);
  }

  /** The first entry of a task goes when its receipt comes first. */
  lemma TakesHead(orig: seq<Pair>, c: Cid, a: nat, n: nat, own: Receipt, y: seq<Receipt>)
    requires Block(orig, c, a, n) && n > 0 && own.instruction == c && multiset(orig)[orig[a]] == 1
    ensures orig[a] !in DropAll(orig, [own] + y)
  {
    FirstAt(orig, c, a);
    OnceGone(orig, a);
    TakesFirstOf(orig, c, a, own, y, orig[a]);
  }

  lemma FirstAt(v: seq<Pair>, c: Cid, a: nat)
    requires a < |v| && v[a].0 == c && forall q :: 0 <= q < a ==> v[q].0 != c
    ensures Holds(v, c) && First(v, c) == a && Drop(v, c) == SwapRemove(v, a)
  {
  }

  lemma OnceGone(v: seq<Pair>, h: nat)
    requires h < |v| && multiset(v)[v[h]] == 1
    ensures v[h] !in SwapRemove(v, h)
  {
    SwapRemoveTakes(v, h);
    assert multiset(SwapRemove(v, h))[v[h]] == 0;
  }

  /** What the first removal takes does not come back. */
  lemma TakesFirstOf(v: seq<Pair>, c: Cid, a: nat, own: Receipt, y: seq<Receipt>, e: Pair)
    requires a < |v| && Drop(v, c) == SwapRemove(v, a) && own.instruction == c && e !in SwapRemove(v, a)
    ensures e !in DropAll(v, [own] + y)
  {
    DropAllThree(v, [], own, y);
    assert [] + [own] + y == [own] + y;
    DropAllSubset(SwapRemove(v, a), y, e);
  }

  /**
   An entry behind the first of its task goes when it has become the last of the vector and
   is moved to the front by the removal for a task before it.
   */
  lemma TakesInside(
    orig: seq<Pair>, c: Cid, a: nat, n: nat, j: nat, d: Cid, a': nat, n': nat, x: seq<Receipt>,
    first: Receipt, own: Receipt, y: seq<Receipt>)
    requires Block(orig, c, a, n) && 1 <= j < n && own.instruction == c && !Names(x, c)
    requires Block(orig, d, a', n') && n' > 0 && a' < a && first.instruction == d && d != c && !Names(x, d)
    requires forall q :: 0 <= q < a' ==> !Names(x, orig[q].0)
    requires EachOnce(x) && forall i :: 0 <= i < |x| ==> Holds(orig, x[i].instruction)
    requires |x| == |orig| - 1 - (a + j) && multiset(orig)[orig[a + j]] == 1
    ensures orig[a + j] !in DropAll(orig, x + [first] + ([own] + y))
  {
    var v, p := DropAll(orig, x), a + j;
    LastInPlace(orig, x, p);
    HeadUnmoved(orig, x, d, a', n');
    var w := SwapRemove(v, a');
    assert w[a'] == orig[p] && |w| == p && forall q :: 0 <= q < a' ==> w[q] == orig[q];
    FirstAt(w, c, a');
    MovedGone(v, w, orig, x, a', orig[p]);
    TakesFirstOf(w, c, a', own, y, orig[p]);
    DropAllThree(orig, x, first, [own] + y);
  }

  /** After as many removals as there were entries behind it, the entry is the last. */
  lemma LastInPlace(orig: seq<Pair>, x: seq<Receipt>, p: nat)
    requires EachOnce(x) && forall i :: 0 <= i < |x| ==> Holds(orig, x[i].instruction)
    requires p < |orig| && |x| == |orig| - 1 - p && !Names(x, orig[p].0)
    ensures |DropAll(orig, x)| == p + 1 && DropAll(orig, x)[p] == orig[p]
  {
    Shrinks(orig, x);
    Unmoved(orig, x, p);
  }

  lemma HeadUnmoved(orig: seq<Pair>, x: seq<Receipt>, d: Cid, a': nat, n': nat)
    requires Block(orig, d, a', n') && n' > 0 && !Names(x, d)
    requires forall q :: 0 <= q < a' ==> !Names(x, orig[q].0)
    ensures var v := DropAll(orig, x);
            && |v| > a' && v[a'] == orig[a'] && (forall q :: 0 <= q < a' ==> v[q] == orig[q])
            && Drop(v, d) == SwapRemove(v, a')
  {
    var v := DropAll(orig, x);
    PrefixKept(orig, x, a' + 1);
    assert forall q :: 0 <= q <= a' ==> v[q] == v[..a' + 1][q] && orig[q] == orig[..a' + 1][q];
    FirstAt(v, d, a');
  }

  lemma MovedGone(v: seq<Pair>, w: seq<Pair>, orig: seq<Pair>, x: seq<Receipt>, h: nat, e: Pair)
    requires v == DropAll(orig, x) && h < |v| && w == SwapRemove(v, h) && h < |w| && w[h] == e
    requires multiset(orig)[e] == 1
    ensures e !in SwapRemove(w, h)
  {
    DropAllKeeps(orig, x);
    SwapRemoveTakes(v, h);
    SwapRemoveTakes(w, h);
    assert multiset(v)[e] <= multiset(orig)[e];
    assert multiset(SwapRemove(w, h))[e] == 0;
  }

  // ---------------------------------------------------------------------------
  // The entries of a batch
  // ---------------------------------------------------------------------------

  /** The entries a batch pushes behind entry `j` of task `i`. */
  function Behind(batch: seq<Vertex>, indexed: map<Cid, seq<Resource>>, i: nat, j: nat): int
    requires i < |batch| && batch[i].cid in indexed
  {
    |indexed[batch[i].cid]| - 1 - j + |PairsOf(batch[i + 1..], indexed)|
  }

  lemma {:induction false} PairsSplit(batch: seq<Vertex>, indexed: map<Cid, seq<Resource>>, i: nat)
    requires i < |batch| && AllIndexed(batch, indexed)
    ensures PairsOf(batch, indexed)
         == PairsOf(batch[..i], indexed) + (Pairs(batch[i].cid, indexed[batch[i].cid]) + PairsOf(batch[i + 1..], indexed))
  {
    if i == 0 {
      assert batch[..0] == [];
    } else {
      var rest := batch[1..];
      assert rest[i - 1] == batch[i] && rest[..i - 1] == batch[..i][1..] && rest[i..] == batch[i + 1..];
      assert AllIndexed(rest, indexed) && batch[..i][0] == batch[0];
      PairsSplit(rest, indexed, i - 1);
      Associative(Pairs(batch[0].cid, indexed[batch[0].cid]), PairsOf(rest[..i - 1], indexed),
                  Pairs(batch[i].cid, indexed[batch[i].cid]) + PairsOf(batch[i + 1..], indexed));
    }
  }

  /** Entries pushed before task `i` belong to the tasks before it. */
  lemma PairsBefore(batch: seq<Vertex>, indexed: map<Cid, seq<Resource>>, i: nat, q: nat)
    requires i < |batch| && AllIndexed(batch, indexed) && q < |PairsOf(batch[..i], indexed)|
    ensures q < |PairsOf(batch, indexed)|
    ensures exists i' :: 0 <= i' < i && PairsOf(batch, indexed)[q].0 == batch[i'].cid
  {
    PairsSplit(batch, indexed, i);
    PairsOfAre(batch[..i], indexed);
    var e := PairsOf(batch[..i], indexed)[q];
    assert e in PairsOf(batch[..i], indexed);
    var i' :| 0 <= i' < |batch[..i]| && Cids(batch[..i])[i'] == e.0;
    assert batch[i'].cid == e.0;
  }

  lemma PairsAfter(batch: seq<Vertex>, indexed: map<Cid, seq<Resource>>, i: nat)
    requires i < |batch| && DistinctBatch(batch)
    ensures NoneOf(PairsOf(batch[i + 1..], indexed), batch[i].cid)
  {
    var after := PairsOf(batch[i + 1..], indexed);
    PairsOfAre(batch[i + 1..], indexed);
    forall q | 0 <= q < |after| ensures after[q].0 != batch[i].cid {
      assert after[q] in after;
      var k :| 0 <= k < |batch[i + 1..]| && Cids(batch[i + 1..])[k] == after[q].0;
      assert batch[i + 1 + k].cid == after[q].0;
    }
  }

  /** Where the entries of task `i` are in the vector. */
  lemma BlockOf(z: seq<Pair>, batch: seq<Vertex>, indexed: map<Cid, seq<Resource>>, i: nat)
    requires i < |batch| && AllIndexed(batch, indexed) && DistinctBatch(batch) && NoneOf(z, batch[i].cid)
    ensures var orig, a := z + PairsOf(batch, indexed), |z| + |PairsOf(batch[..i], indexed)|;
            && Block(orig, batch[i].cid, a, |indexed[batch[i].cid]|)
            && |orig| == a + |indexed[batch[i].cid]| + |PairsOf(batch[i + 1..], indexed)|
  {
    var c := batch[i].cid;
    var before, mine, after := PairsOf(batch[..i], indexed), Pairs(c, indexed[c]), PairsOf(batch[i + 1..], indexed);
    var orig, a := z + PairsOf(batch, indexed), |z| + |before|;
    PairsSplit(batch, indexed, i);
    PairsAfter(batch, indexed, i);
    assert orig == (z + before) + (mine + after);
    forall q | 0 <= q < |orig| ensures orig[q].0 == c <==> a <= q < a + |mine| {
      if |z| <= q < a { PairsBefore(batch, indexed, i, q - |z|); }
      if a <= q < a + |mine| { assert orig[q] == mine[q - a]; }
      if a + |mine| <= q { assert orig[q] == after[q - a - |mine|]; }
    }
  }

  lemma ListsOf(z: seq<Pair>, batch: seq<Vertex>, indexed: map<Cid, seq<Resource>>, i: nat)
    requires i < |batch| && AllIndexed(batch, indexed)
    ensures Lists(z + PairsOf(batch, indexed), |z| + |PairsOf(batch[..i], indexed)|, indexed[batch[i].cid])
  {
    var before, after := PairsOf(batch[..i], indexed), PairsOf(batch[i + 1..], indexed);
    var mine, orig, a := Pairs(batch[i].cid, indexed[batch[i].cid]), z + PairsOf(batch, indexed), |z| + |before|;
    PairsSplit(batch, indexed, i);
    assert orig == (z + before) + (mine + after);
    assert forall q :: a <= q < a + |mine| ==> orig[q] == mine[q - a];
  }

  lemma EntryIs(z: seq<Pair>, batch: seq<Vertex>, indexed: map<Cid, seq<Resource>>, i: nat, j: nat)
    requires i < |batch| && AllIndexed(batch, indexed) && j < |indexed[batch[i].cid]|
    ensures var orig, a := z + PairsOf(batch, indexed), |z| + |PairsOf(batch[..i], indexed)|;
            a + j < |orig| && orig[a + j] == (batch[i].cid, indexed[batch[i].cid][j])
  {
    PairsSplit(batch, indexed, i);
  }

  lemma BeforeBlock(z: seq<Pair>, batch: seq<Vertex>, indexed: map<Cid, seq<Resource>>, i: nat, q: nat)
    requires i < |batch| && AllIndexed(batch, indexed) && q < |z| + |PairsOf(batch[..i], indexed)|
    ensures var orig := z + PairsOf(batch, indexed);
            q < |orig| && (orig[q] in z || exists i' :: 0 <= i' < i && orig[q].0 == batch[i'].cid)
  {
    PairsSplit(batch, indexed, i);
    if q >= |z| { PairsBefore(batch, indexed, i, q - |z|); }
  }

  // ---------------------------------------------------------------------------
  // The rows of a batch
  // ---------------------------------------------------------------------------

  /** The resource stands at one position of the list, and at no other. */
  ghost predicate OnlyAt(rs: seq<Resource>, r: Resource, j: int) {
    0 <= j < |rs| && rs[j] == r && forall k :: 0 <= k < |rs| && k != j ==> rs[k] != r
  }

  lemma CountOne<T>(s: seq<T>, q: nat)
    requires q < |s|
    ensures multiset(s)[s[q]] == 1 <==> forall k :: 0 <= k < |s| && k != q ==> s[k] != s[q]
  {
    var front, back := s[..q], s[q + 1..];
    assert s == front + [s[q]] + back;
    if forall k :: 0 <= k < |s| && k != q ==> s[k] != s[q] {
      assert forall k :: 0 <= k < |front| ==> front[k] == s[k];
      assert forall k :: 0 <= k < |back| ==> back[k] == s[q + 1 + k];
      assert s[q] !in front && s[q] !in back;
    } else {
      var k :| 0 <= k < |s| && k != q && s[k] == s[q];
      if k < q { assert front[k] in front; } else { assert back[k - q - 1] in back; }
      assert multiset(front)[s[q]] + multiset(back)[s[q]] >= 1;
    }
  }

  /** A resource stands once in the task's list exactly if its entry stands once in the vector. */
  lemma CountInBlock(orig: seq<Pair>, c: Cid, a: nat, rs: seq<Resource>, j: nat)
    requires Block(orig, c, a, |rs|) && Lists(orig, a, rs) && j < |rs|
    ensures orig[a + j] == (c, rs[j]) && (multiset(orig)[(c, rs[j])] == 1 <==> OnlyAt(rs, rs[j], j))
  {
    CountOne(orig, a + j);
    if OnlyAt(rs, rs[j], j) {
      forall q | 0 <= q < |orig| && q != a + j ensures orig[q] != (c, rs[j]) {
        if orig[q].0 == c { assert orig[q].1 == rs[q - a]; }
      }
    } else {
      var k :| 0 <= k < |rs| && k != j && rs[k] == rs[j];
      assert orig[a + k] == orig[a + j];
    }
  }

  ghost predicate OneEach(t: Tables, batch: seq<Vertex>) {
    forall k :: 0 <= k < |batch| ==> AtMostOne(t, batch[k].cid)
  }

  /** The rows split at the receipt of a task that has exactly one. */
  lemma SplitAt(t: Tables, batch: seq<Vertex>, found: seq<Receipt>, c: Cid)
    returns (x: seq<Receipt>, own: Receipt, y: seq<Receipt>)
    requires Keyed(t) && Finds(t, Cids(batch), found) && AtMostOne(t, c) && Names(found, c)
    ensures found == x + [own] + y && own.instruction == c && !Names(x, c) && !Names(y, c)
  {
    var k :| 0 <= k < |found| && found[k].instruction == c;
    x, own, y := found[..k], found[k], found[k + 1..];
    forall i | 0 <= i < |found| && found[i].instruction == c ensures i == k { OneRow(t, batch, found, c, i, k); }
    SplitsOnce(found, c, k);
  }

  lemma SplitsOnce(found: seq<Receipt>, c: Cid, k: nat)
    requires k < |found| && forall i :: 0 <= i < |found| && found[i].instruction == c ==> i == k
    ensures found == found[..k] + [found[k]] + found[k + 1..] && !Names(found[..k], c) && !Names(found[k + 1..], c)
  {
    var x, y := found[..k], found[k + 1..];
    assert forall i :: 0 <= i < |x| ==> x[i] == found[i];
    assert forall i :: 0 <= i < |y| ==> y[i] == found[k + 1 + i];
  }

  lemma OneRow(t: Tables, batch: seq<Vertex>, found: seq<Receipt>, c: Cid, i: nat, k: nat)
    requires Finds(t, Cids(batch), found) && AtMostOne(t, c) && i < |found| && k < |found|
    requires found[i].instruction == c && found[k].instruction == c
    ensures i == k
  {
    assert found[i] in found && found[k] in found;
    OneKey(t, c, found[i].cid, found[k].cid);
  }

  ghost predicate Earlier(t: Tables, batch: seq<Vertex>, i: nat)
    requires i < |batch|
  {
    exists i' :: 0 <= i' < i && HasInstruction(t, batch[i'].cid)
  }

  /**
   Some order of the rows takes entry `j` of task `i`: the task has a receipt, and the entry
   is its first, or a task before it has a receipt and the other receipts outnumber the
   entries behind it.
   */
  ghost predicate Takable(t: Tables, batch: seq<Vertex>, indexed: map<Cid, seq<Resource>>, i: nat, j: nat)
    requires i < |batch| && batch[i].cid in indexed
  {
    && HasInstruction(t, batch[i].cid)
    && (j == 0 || (Earlier(t, batch, i) && |Matching(t, batch)| - 1 > Behind(batch, indexed, i, j)))
  }

  ghost predicate Losable(t: Tables, batch: seq<Vertex>, indexed: map<Cid, seq<Resource>>, i: nat, r: Resource)
    requires i < |batch| && batch[i].cid in indexed
  {
    exists j: nat :: OnlyAt(indexed[batch[i].cid], r, j) && Takable(t, batch, indexed, i, j)
  }

  /** Nothing in the vector yet belongs to the batch. */
  ghost predicate Clear(z: seq<Pair>, batch: seq<Vertex>) {
    forall k :: 0 <= k < |batch| ==> NoneOf(z, batch[k].cid)
  }

  /** What is lost was taken by the receipt of its own task. */
  lemma LostSplit(
    t: Tables, batch: seq<Vertex>, indexed: map<Cid, seq<Resource>>, z: seq<Pair>, found: seq<Receipt>, i: nat, j: nat)
    returns (x: seq<Receipt>, own: Receipt, y: seq<Receipt>)
    requires Keyed(t) && DistinctBatch(batch) && AllIndexed(batch, indexed) && OneEach(t, batch) && Clear(z, batch)
    requires i < |batch| && j < |indexed[batch[i].cid]| && Finds(t, Cids(batch), found)
    requires (batch[i].cid, indexed[batch[i].cid][j]) !in DropAll(z + PairsOf(batch, indexed), found)
    ensures HasInstruction(t, batch[i].cid) && found == x + [own] + y && own.instruction == batch[i].cid
    ensures !Names(x, batch[i].cid) && !Names(y, batch[i].cid)
  {
    var a := |z| + |PairsOf(batch[..i], indexed)|;
    EntryIs(z, batch, indexed, i, j);
    LostIsNamed(z + PairsOf(batch, indexed), a + j, found);
    FoundAre(t, batch, found);
    x, own, y := SplitAt(t, batch, found, batch[i].cid);
  }

  /** An entry that is lost is one some order of the rows can take. */
  lemma LostIsLosable(
    t: Tables, batch: seq<Vertex>, indexed: map<Cid, seq<Resource>>, z: seq<Pair>, found: seq<Receipt>, i: nat, j: nat)
    requires Keyed(t) && DistinctBatch(batch) && AllIndexed(batch, indexed) && OneEach(t, batch) && Clear(z, batch)
    requires i < |batch| && j < |indexed[batch[i].cid]| && Finds(t, Cids(batch), found)
    requires (batch[i].cid, indexed[batch[i].cid][j]) !in DropAll(z + PairsOf(batch, indexed), found)
    ensures OnlyAt(indexed[batch[i].cid], indexed[batch[i].cid][j], j) && Takable(t, batch, indexed, i, j)
  {
    var x, own, y := LostSplit(t, batch, indexed, z, found, i, j);
    OnlyLost(batch, indexed, z, x, own, y, i, j);
    if j > 0 { LostInside(t, batch, indexed, z, x, own, y, i, j); }
  }

  lemma OnlyLost(
    batch: seq<Vertex>, indexed: map<Cid, seq<Resource>>, z: seq<Pair>, x: seq<Receipt>, own: Receipt, y: seq<Receipt>,
    i: nat, j: nat)
    requires DistinctBatch(batch) && AllIndexed(batch, indexed) && Clear(z, batch)
    requires i < |batch| && j < |indexed[batch[i].cid]|
    requires own.instruction == batch[i].cid && !Names(x, batch[i].cid) && !Names(y, batch[i].cid)
    requires (batch[i].cid, indexed[batch[i].cid][j]) !in DropAll(z + PairsOf(batch, indexed), x + [own] + y)
    ensures OnlyAt(indexed[batch[i].cid], indexed[batch[i].cid][j], j)
  {
    var c, a := batch[i].cid, |z| + |PairsOf(batch[..i], indexed)|;
    BlockOf(z, batch, indexed, i);
    ListsOf(z, batch, indexed, i);
    LostIsOnly(z + PairsOf(batch, indexed), c, a, indexed[c], j, x, own, y);
  }

  lemma LostIsNamed(orig: seq<Pair>, q: nat, found: seq<Receipt>)
    requires q < |orig| && orig[q] !in DropAll(orig, found)
    ensures Names(found, orig[q].0)
  {
    DropAllKeeps(orig, found);
  }

  lemma LostIsOnly(
    orig: seq<Pair>, c: Cid, a: nat, rs: seq<Resource>, j: nat, x: seq<Receipt>, own: Receipt, y: seq<Receipt>)
    requires Block(orig, c, a, |rs|) && Lists(orig, a, rs) && j < |rs|
    requires own.instruction == c && !Names(x, c) && !Names(y, c) && (c, rs[j]) !in DropAll(orig, x + [own] + y)
    ensures OnlyAt(rs, rs[j], j)
  {
    var e := (c, rs[j]);
    CountInBlock(orig, c, a, rs, j);
    TimesOnce(x, own, y);
    PairCount(orig, x + [own] + y, e);
    assert orig[a + j] in orig;
  }

  lemma {:induction false} TimesAppend(x: seq<Receipt>, y: seq<Receipt>, c: Cid)
    ensures Times(x + y, c) == Times(x, c) + Times(y, c)
  {
    if y == [] {
      assert x + y == x;
    } else {
      assert (x + y)[..|x + y| - 1] == x + y[..|y| - 1];
      TimesAppend(x, y[..|y| - 1], c);
    }
  }

  lemma TimesOnce(x: seq<Receipt>, own: Receipt, y: seq<Receipt>)
    requires !Names(x, own.instruction) && !Names(y, own.instruction)
    ensures Times(x + [own] + y, own.instruction) == 1
  {
    var c := own.instruction;
    TimesAppend(x + [own], y, c);
    TimesAppend(x, [own], c);
    TimesZero(x, c);
    TimesZero(y, c);
    assert [own][..0] == [];
  }

  lemma LostInside(
    t: Tables, batch: seq<Vertex>, indexed: map<Cid, seq<Resource>>, z: seq<Pair>, x: seq<Receipt>, own: Receipt,
    y: seq<Receipt>, i: nat, j: nat)
    requires Keyed(t) && DistinctBatch(batch) && AllIndexed(batch, indexed) && Clear(z, batch)
    requires i < |batch| && 0 < j < |indexed[batch[i].cid]| && Finds(t, Cids(batch), x + [own] + y)
    requires own.instruction == batch[i].cid && !Names(x, batch[i].cid) && !Names(y, batch[i].cid)
    requires (batch[i].cid, indexed[batch[i].cid][j]) !in DropAll(z + PairsOf(batch, indexed), x + [own] + y)
    ensures Earlier(t, batch, i) && |Matching(t, batch)| - 1 > Behind(batch, indexed, i, j)
  {
    var c := batch[i].cid;
    var orig, a := z + PairsOf(batch, indexed), |z| + |PairsOf(batch[..i], indexed)|;
    BlockOf(z, batch, indexed, i);
    EntryIs(z, batch, indexed, i, j);
    assert |x| <= |Matching(t, batch)| - 1 by { FoundAre(t, batch, x + [own] + y); }
    if |x| <= Behind(batch, indexed, i, j) || !Earlier(t, batch, i) {
      assert |x| > Behind(batch, indexed, i, j) ==> forall q :: 0 <= q < a ==> !Names(x, orig[q].0) by {
        if !Earlier(t, batch, i) {
          forall q | 0 <= q < a ensures !Names(x, orig[q].0) { NotEarlier(t, batch, indexed, z, x, own, y, i, q); }
        }
      }
      KeptInside(orig, c, a, |indexed[c]|, j, x, own, y);
    }
  }

  lemma NotEarlier(
    t: Tables, batch: seq<Vertex>, indexed: map<Cid, seq<Resource>>, z: seq<Pair>, x: seq<Receipt>, own: Receipt,
    y: seq<Receipt>, i: nat, q: nat)
    requires Keyed(t) && AllIndexed(batch, indexed) && Clear(z, batch) && Finds(t, Cids(batch), x + [own] + y)
    requires i < |batch| && q < |z| + |PairsOf(batch[..i], indexed)| && !Earlier(t, batch, i)
    ensures q < |z + PairsOf(batch, indexed)| && !Names(x, (z + PairsOf(batch, indexed))[q].0)
  {
    BeforeBlock(z, batch, indexed, i, q);
    var e := (z + PairsOf(batch, indexed))[q];
    FoundAre(t, batch, x + [own] + y);
    NamesFront(x, own, y, e.0);
    forall m | 0 <= m < |batch| && e in z
      ensures Cids(batch)[m] != e.0
    {
      assert NoneOf(z, batch[m].cid);
    }
  }

  lemma NamesFront(x: seq<Receipt>, own: Receipt, y: seq<Receipt>, c: Cid)
    ensures Names(x, c) ==> Names(x + [own] + y, c)
  {
    if k :| 0 <= k < |x| && x[k].instruction == c {
      assert (x + [own] + y)[k].instruction == c;
    }
  }

  // ---------------------------------------------------------------------------
  // An order that takes the entry
  // ---------------------------------------------------------------------------

  lemma {:induction false} FirstReceipted(t: Tables, batch: seq<Vertex>, i: nat) returns (i': nat)
    requires i < |batch| && Earlier(t, batch, i)
    ensures i' < i && HasInstruction(t, batch[i'].cid) && !Earlier(t, batch, i')
  {
    i' :| 0 <= i' < i && HasInstruction(t, batch[i'].cid);
    if Earlier(t, batch, i') { i' := FirstReceipted(t, batch, i'); }
  }

  lemma {:induction false} RowsInCount(t: Tables, keys: set<Cid>)
    requires forall k :: k in keys ==> k in t.receipts
    ensures |RowsIn(t, keys)| == |keys|
  {
    if keys != {} {
      var k :| k in keys && RowsIn(t, keys) == [t.receipts[k]] + RowsIn(t, keys - {k});
      RowsInCount(t, keys - {k});
    }
  }

  lemma OneKey(t: Tables, c: Cid, k: Cid, k': Cid)
    requires AtMostOne(t, c) && IsReceipt(t, c, k) && IsReceipt(t, c, k')
    ensures k == k'
  {
    ReceiptsAre(t, c);
    assert k in ReceiptsFor(t, c) && k' in ReceiptsFor(t, c);
  }

  ghost predicate IsReceipt(t: Tables, c: Cid, k: Cid) {
    k in t.receipts && t.receipts[k].instruction == c
  }

  /** Some of the rows before two chosen ones, and the others behind. */
  ghost function Around(rest: seq<Receipt>, n: nat, first: Receipt, own: Receipt): seq<Receipt>
    requires n <= |rest|
  {
    rest[..n] + [first] + ([own] + rest[n..])
  }

  lemma AroundHas(rest: seq<Receipt>, n: nat, first: Receipt, own: Receipt, r: Receipt)
    requires n <= |rest|
    ensures r in Around(rest, n, first, own) <==> r in rest || r == first || r == own
  {
    assert rest == rest[..n] + rest[n..];
  }

  lemma AroundFinds(t: Tables, batch: seq<Vertex>, k: Cid, k': Cid, n: nat)
    requires Keyed(t) && k in Matching(t, batch) && k' in Matching(t, batch) && k != k'
    requires n <= |RowsIn(t, Matching(t, batch) - {k, k'})|
    ensures Finds(t, Cids(batch), Around(RowsIn(t, Matching(t, batch) - {k, k'}), n, t.receipts[k'], t.receipts[k]))
  {
    var keys := Matching(t, batch) - {k, k'};
    var rest := RowsIn(t, keys);
    var found := Around(rest, n, t.receipts[k'], t.receipts[k]);
    RowsInAre(t, keys);
    forall r ensures r in found <==> r.cid in t.receipts && t.receipts[r.cid] == r && r.instruction in Cids(batch) {
      AroundHas(rest, n, t.receipts[k'], t.receipts[k], r);
    }
    forall i, j | 0 <= i < j < |found| ensures found[i].cid != found[j].cid { AroundDistinct(t, rest, n, k, k', i, j); }
  }

  lemma AroundDistinct(t: Tables, rest: seq<Receipt>, n: nat, k: Cid, k': Cid, i: nat, j: nat)
    requires Keyed(t) && k in t.receipts && k' in t.receipts && k != k' && DistinctRows(rest) && n <= |rest|
    requires forall r :: r in rest ==> r.cid != k && r.cid != k'
    requires i < j < |rest| + 2
    ensures Around(rest, n, t.receipts[k'], t.receipts[k])[i].cid != Around(rest, n, t.receipts[k'], t.receipts[k])[j].cid
  {
    var found := Around(rest, n, t.receipts[k'], t.receipts[k]);
    assert forall m :: 0 <= m < n ==> found[m] == rest[m];
    assert found[n] == t.receipts[k'] && found[n + 1] == t.receipts[k];
    assert forall m :: n + 2 <= m < |found| ==> found[m] == rest[m - 2];
    assert forall m :: 0 <= m < |rest| ==> rest[m] in rest;
  }

  ghost function AloneFirst(rest: seq<Receipt>, own: Receipt): seq<Receipt> {
    [own] + rest
  }

  lemma AloneFinds(t: Tables, batch: seq<Vertex>, k: Cid)
    requires Keyed(t) && k in Matching(t, batch)
    ensures Finds(t, Cids(batch), AloneFirst(RowsIn(t, Matching(t, batch) - {k}), t.receipts[k]))
  {
    var rest := RowsIn(t, Matching(t, batch) - {k});
    RowsInAre(t, Matching(t, batch) - {k});
    assert forall m :: 0 <= m < |rest| ==> rest[m] in rest;
  }

  ghost predicate AllHave(batch: seq<Vertex>, indexed: map<Cid, seq<Resource>>) {
    AllIndexed(batch, indexed) && forall k :: 0 <= k < |batch| ==> indexed[batch[k].cid] != []
  }

  /** An order of the rows in which the entry is lost, whatever the vector held before. */
  ghost predicate Loses(t: Tables, batch: seq<Vertex>, indexed: map<Cid, seq<Resource>>, e: Pair, found: seq<Receipt>) {
    && Finds(t, Cids(batch), found)
    && forall z :: Clear(z, batch) ==> e !in DropAll(z + PairsOf(batch, indexed), found)
  }

  lemma HeadLosable(t: Tables, batch: seq<Vertex>, indexed: map<Cid, seq<Resource>>, i: nat) returns (found: seq<Receipt>)
    requires Keyed(t) && DistinctBatch(batch) && AllHave(batch, indexed) && i < |batch|
    requires HasInstruction(t, batch[i].cid) && OnlyAt(indexed[batch[i].cid], indexed[batch[i].cid][0], 0)
    ensures Loses(t, batch, indexed, (batch[i].cid, indexed[batch[i].cid][0]), found)
  {
    var c := batch[i].cid;
    var k :| k in t.receipts && t.receipts[k].instruction == c;
    assert Cids(batch)[i] == c;
    var rest := RowsIn(t, Matching(t, batch) - {k});
    found := AloneFirst(rest, t.receipts[k]);
    AloneFinds(t, batch, k);
    forall z | Clear(z, batch) ensures (c, indexed[c][0]) !in DropAll(z + PairsOf(batch, indexed), found) {
      HeadTaken(batch, indexed, z, i, t.receipts[k], rest);
    }
  }

  lemma HeadTaken(
    batch: seq<Vertex>, indexed: map<Cid, seq<Resource>>, z: seq<Pair>, i: nat, own: Receipt, rest: seq<Receipt>)
    requires DistinctBatch(batch) && AllHave(batch, indexed) && Clear(z, batch) && i < |batch|
    requires own.instruction == batch[i].cid && OnlyAt(indexed[batch[i].cid], indexed[batch[i].cid][0], 0)
    ensures (batch[i].cid, indexed[batch[i].cid][0]) !in DropAll(z + PairsOf(batch, indexed), AloneFirst(rest, own))
  {
    var c := batch[i].cid;
    EntryAt(z, batch, indexed, i, 0);
    TakesHead(z + PairsOf(batch, indexed), c, |z| + |PairsOf(batch[..i], indexed)|, |indexed[c]|, own, rest);
  }

  /** What the rows before the two chosen ones are like. */
  lemma RestIs(t: Tables, batch: seq<Vertex>, indexed: map<Cid, seq<Resource>>, c: Cid, d: Cid, k: Cid, k': Cid, n: nat)
    requires Keyed(t) && OneEach(t, batch) && c in Cids(batch) && d in Cids(batch)
    requires IsReceipt(t, c, k) && IsReceipt(t, d, k') && n <= |RowsIn(t, Matching(t, batch) - {k, k'})|
    ensures var x := RowsIn(t, Matching(t, batch) - {k, k'})[..n];
            && EachOnce(x) && !Names(x, c) && !Names(x, d)
            && forall m :: 0 <= m < |x| ==> x[m].instruction in Cids(batch) && HasInstruction(t, x[m].instruction)
  {
    var keys := Matching(t, batch) - {k, k'};
    var rest := RowsIn(t, keys);
    RowsInAre(t, keys);
    forall m | 0 <= m < |rest|
      ensures rest[m].cid in keys && IsReceipt(t, rest[m].instruction, rest[m].cid)
      ensures rest[m].instruction in Cids(batch) && AtMostOne(t, rest[m].instruction)
    {
      assert rest[m] in rest;
      var i :| 0 <= i < |batch| && Cids(batch)[i] == rest[m].instruction;
      assert AtMostOne(t, batch[i].cid);
    }
    forall m | 0 <= m < |rest| ensures rest[m].instruction != c && rest[m].instruction != d {
      if rest[m].instruction == c { OneKey(t, c, k, rest[m].cid); }
      if rest[m].instruction == d { OneKey(t, d, k', rest[m].cid); }
    }
    forall m, m' | 0 <= m < m' < |rest| ensures rest[m].instruction != rest[m'].instruction {
      if rest[m].instruction == rest[m'].instruction { OneKey(t, rest[m].instruction, rest[m].cid, rest[m'].cid); }
    }
    assert forall m :: 0 <= m < n ==> rest[..n][m] == rest[m];
  }

  lemma HoldsOf(z: seq<Pair>, batch: seq<Vertex>, indexed: map<Cid, seq<Resource>>, c: Cid)
    requires AllHave(batch, indexed) && c in Cids(batch)
    ensures Holds(z + PairsOf(batch, indexed), c)
  {
    var i :| 0 <= i < |batch| && Cids(batch)[i] == c;
    var mine := PairsOf(batch, indexed);
    PairsOfAre(batch, indexed);
    assert (c, indexed[c][0]) in mine;
    var q :| 0 <= q < |mine| && mine[q] == (c, indexed[c][0]);
    assert (z + mine)[|z| + q].0 == c;
  }

  lemma InsideLosable(t: Tables, batch: seq<Vertex>, indexed: map<Cid, seq<Resource>>, i: nat, j: nat)
    returns (found: seq<Receipt>)
    requires Keyed(t) && DistinctBatch(batch) && AllHave(batch, indexed) && OneEach(t, batch) && i < |batch|
    requires 0 < j < |indexed[batch[i].cid]| && Takable(t, batch, indexed, i, j)
    requires OnlyAt(indexed[batch[i].cid], indexed[batch[i].cid][j], j)
    ensures Loses(t, batch, indexed, (batch[i].cid, indexed[batch[i].cid][j]), found)
  {
    var c := batch[i].cid;
    var i' := FirstReceipted(t, batch, i);
    var d, n := batch[i'].cid, Behind(batch, indexed, i, j);
    var k :| k in t.receipts && t.receipts[k].instruction == c;
    var k' :| k' in t.receipts && t.receipts[k'].instruction == d;
    assert Cids(batch)[i] == c && Cids(batch)[i'] == d;
    RowsInCount(t, Matching(t, batch) - {k, k'});
    AroundFinds(t, batch, k, k', n);
    var rest := RowsIn(t, Matching(t, batch) - {k, k'});
    found := Around(rest, n, t.receipts[k'], t.receipts[k]);
    forall z | Clear(z, batch) ensures (c, indexed[c][j]) !in DropAll(z + PairsOf(batch, indexed), found) {
      InsideTaken(t, batch, indexed, z, i, j, i', k, k');
    }
  }

  lemma InsideTaken(
    t: Tables, batch: seq<Vertex>, indexed: map<Cid, seq<Resource>>, z: seq<Pair>, i: nat, j: nat, i': nat, k: Cid, k': Cid)
    requires Keyed(t) && DistinctBatch(batch) && AllHave(batch, indexed) && OneEach(t, batch) && Clear(z, batch)
    requires i' < i < |batch| && 0 < j < |indexed[batch[i].cid]| && !Earlier(t, batch, i')
    requires OnlyAt(indexed[batch[i].cid], indexed[batch[i].cid][j], j)
    requires IsReceipt(t, batch[i].cid, k) && IsReceipt(t, batch[i'].cid, k')
    requires 0 <= Behind(batch, indexed, i, j) <= |RowsIn(t, Matching(t, batch) - {k, k'})|
    ensures var rest, n := RowsIn(t, Matching(t, batch) - {k, k'}), Behind(batch, indexed, i, j);
            (batch[i].cid, indexed[batch[i].cid][j]) !in
              DropAll(z + PairsOf(batch, indexed), Around(rest, n, t.receipts[k'], t.receipts[k]))
  {
    var c, d, n := batch[i].cid, batch[i'].cid, Behind(batch, indexed, i, j);
    var rest := RowsIn(t, Matching(t, batch) - {k, k'});
    assert Cids(batch)[i] == c && Cids(batch)[i'] == d;
    RestIs(t, batch, indexed, c, d, k, k', n);
    InsideTakenBy(t, batch, indexed, z, i, j, i', rest[..n], t.receipts[k'], t.receipts[k], rest[n..]);
  }

  lemma InsideTakenBy(
    t: Tables, batch: seq<Vertex>, indexed: map<Cid, seq<Resource>>, z: seq<Pair>, i: nat, j: nat, i': nat,
    x: seq<Receipt>, first: Receipt, own: Receipt, y: seq<Receipt>)
    requires DistinctBatch(batch) && AllHave(batch, indexed) && Clear(z, batch)
    requires i' < i < |batch| && 0 < j < |indexed[batch[i].cid]| && !Earlier(t, batch, i')
    requires OnlyAt(indexed[batch[i].cid], indexed[batch[i].cid][j], j) && |x| == Behind(batch, indexed, i, j)
    requires own.instruction == batch[i].cid && first.instruction == batch[i'].cid
    requires EachOnce(x) && !Names(x, batch[i].cid) && !Names(x, batch[i'].cid)
    requires forall m :: 0 <= m < |x| ==> x[m].instruction in Cids(batch) && HasInstruction(t, x[m].instruction)
    ensures (batch[i].cid, indexed[batch[i].cid][j]) !in
              DropAll(z + PairsOf(batch, indexed), x + [first] + ([own] + y))
  {
    var c, d := batch[i].cid, batch[i'].cid;
    var orig := z + PairsOf(batch, indexed);
    var a, a' := |z| + |PairsOf(batch[..i], indexed)|, |z| + |PairsOf(batch[..i'], indexed)|;
    EntryAt(z, batch, indexed, i, j);
    EarlierBlock(z, batch, indexed, i', i);
    RestHolds(t, batch, indexed, z, x, i');
    TakesInside(orig, c, a, |indexed[c]|, j, d, a', |indexed[d]|, x, first, own, y);
  }

  /** The rows before take entries of their tasks, and none in front of the first task that has a receipt. */
  lemma RestHolds(t: Tables, batch: seq<Vertex>, indexed: map<Cid, seq<Resource>>, z: seq<Pair>, x: seq<Receipt>, i: nat)
    requires AllHave(batch, indexed) && Clear(z, batch) && i < |batch| && !Earlier(t, batch, i)
    requires forall m :: 0 <= m < |x| ==> x[m].instruction in Cids(batch) && HasInstruction(t, x[m].instruction)
    ensures |z| + |PairsOf(batch[..i], indexed)| <= |z + PairsOf(batch, indexed)|
    ensures forall m :: 0 <= m < |x| ==> Holds(z + PairsOf(batch, indexed), x[m].instruction)
    ensures forall q :: 0 <= q < |z| + |PairsOf(batch[..i], indexed)| ==> !Names(x, (z + PairsOf(batch, indexed))[q].0)
  {
    var orig := z + PairsOf(batch, indexed);
    PairsSplit(batch, indexed, i);
    forall m | 0 <= m < |x| ensures Holds(orig, x[m].instruction) { HoldsOf(z, batch, indexed, x[m].instruction); }
    forall q | 0 <= q < |z| + |PairsOf(batch[..i], indexed)| ensures !Names(x, orig[q].0) {
      UnnamedBefore(t, batch, indexed, z, x, i, q);
    }
  }

  /** The entry in the vector, and what is behind it. */
  lemma EntryAt(z: seq<Pair>, batch: seq<Vertex>, indexed: map<Cid, seq<Resource>>, i: nat, j: nat)
    requires i < |batch| && AllIndexed(batch, indexed) && DistinctBatch(batch) && NoneOf(z, batch[i].cid)
    requires j < |indexed[batch[i].cid]| && OnlyAt(indexed[batch[i].cid], indexed[batch[i].cid][j], j)
    ensures var orig, a := z + PairsOf(batch, indexed), |z| + |PairsOf(batch[..i], indexed)|;
            && Block(orig, batch[i].cid, a, |indexed[batch[i].cid]|)
            && orig[a + j] == (batch[i].cid, indexed[batch[i].cid][j]) && multiset(orig)[orig[a + j]] == 1
            && |orig| - 1 - (a + j) == Behind(batch, indexed, i, j)
  {
    BlockOf(z, batch, indexed, i);
    ListsOf(z, batch, indexed, i);
    CountInBlock(z + PairsOf(batch, indexed), batch[i].cid, |z| + |PairsOf(batch[..i], indexed)|, indexed[batch[i].cid], j);
  }

  lemma EarlierBlock(z: seq<Pair>, batch: seq<Vertex>, indexed: map<Cid, seq<Resource>>, i': nat, i: nat)
    requires i' < i < |batch| && AllHave(batch, indexed) && DistinctBatch(batch) && NoneOf(z, batch[i'].cid)
    ensures var a, a' := |z| + |PairsOf(batch[..i], indexed)|, |z| + |PairsOf(batch[..i'], indexed)|;
            a' < a && Block(z + PairsOf(batch, indexed), batch[i'].cid, a', |indexed[batch[i'].cid]|)
  {
    BlockOf(z, batch, indexed, i');
    BlocksInOrder(batch, indexed, i', i);
  }

  lemma {:induction false} BlocksInOrder(batch: seq<Vertex>, indexed: map<Cid, seq<Resource>>, i': nat, i: nat)
    requires i' < i < |batch| && AllHave(batch, indexed)
    ensures |PairsOf(batch[..i'], indexed)| < |PairsOf(batch[..i], indexed)|
  {
    var front := batch[..i];
    assert AllIndexed(front, indexed) && front[..i'] == batch[..i'];
    PairsSplit(front, indexed, i');
  }

  lemma UnnamedBefore(
    t: Tables, batch: seq<Vertex>, indexed: map<Cid, seq<Resource>>, z: seq<Pair>, x: seq<Receipt>, i: nat, q: nat)
    requires i < |batch| && AllIndexed(batch, indexed) && Clear(z, batch) && !Earlier(t, batch, i)
    requires forall m :: 0 <= m < |x| ==> x[m].instruction in Cids(batch) && HasInstruction(t, x[m].instruction)
    requires q < |z| + |PairsOf(batch[..i], indexed)|
    ensures q < |z + PairsOf(batch, indexed)| && !Names(x, (z + PairsOf(batch, indexed))[q].0)
  {
    BeforeBlock(z, batch, indexed, i, q);
  }

  /**
   The entry of a resource is lost in some order of the rows if and only if the resource stands
   once in the task's list, at a position that can be taken.
   */
  lemma BatchLosesExactly(
    t: Tables, batch: seq<Vertex>, indexed: map<Cid, seq<Resource>>, z: seq<Pair>, i: nat, r: Resource)
    requires Keyed(t) && DistinctBatch(batch) && AllHave(batch, indexed) && OneEach(t, batch) && Clear(z, batch)
    requires i < |batch| && r in indexed[batch[i].cid]
    ensures (exists found :: Finds(t, Cids(batch), found)
                             && (batch[i].cid, r) !in DropAll(z + PairsOf(batch, indexed), found))
            <==> Losable(t, batch, indexed, i, r)
    ensures Losable(t, batch, indexed, i, r) ==> exists found :: Loses(t, batch, indexed, (batch[i].cid, r), found)
  {
    if found :| Finds(t, Cids(batch), found) && (batch[i].cid, r) !in DropAll(z + PairsOf(batch, indexed), found) {
      var j :| 0 <= j < |indexed[batch[i].cid]| && indexed[batch[i].cid][j] == r;
      LostIsLosable(t, batch, indexed, z, found, i, j);
    }
    if Losable(t, batch, indexed, i, r) {
      var found := LosingOrder(t, batch, indexed, i, r);
      assert Loses(t, batch, indexed, (batch[i].cid, r), found);
    }
  }

  lemma LosingOrder(t: Tables, batch: seq<Vertex>, indexed: map<Cid, seq<Resource>>, i: nat, r: Resource)
    returns (found: seq<Receipt>)
    requires Keyed(t) && DistinctBatch(batch) && AllHave(batch, indexed) && OneEach(t, batch) && i < |batch|
    requires Losable(t, batch, indexed, i, r)
    ensures Loses(t, batch, indexed, (batch[i].cid, r), found)
  {
    var j: nat :| OnlyAt(indexed[batch[i].cid], r, j) && Takable(t, batch, indexed, i, j);
    if j == 0 { found := HeadLosable(t, batch, indexed, i); } else { found := InsideLosable(t, batch, indexed, i, j); }
  }

  // ---------------------------------------------------------------------------
  // The whole scan
  // ---------------------------------------------------------------------------

  /** Batches scanned later leave the entries of a task alone. */
  lemma {:induction false} KeptDown(
    t: Tables, schedule: seq<seq<Vertex>>, indexed: map<Cid, seq<Resource>>, up: nat -> bool, rows: seq<seq<Receipt>>,
    from: nat, b: nat, k: nat, r: Resource)
    requires Keyed(t) && DistinctTasks(schedule) && Looked(t, schedule, indexed, up, from, rows)
    requires from <= b < |schedule| && k < |schedule[b]|
    ensures (schedule[b][k].cid, r) in Scanned(schedule, indexed, rows, from)
       <==> (schedule[b][k].cid, r) in Scanned(schedule, indexed, rows, b)
    decreases b - from
  {
    if from < b {
      KeptDown(t, schedule, indexed, up, rows, from + 1, b, k, r);
      OthersRows(t, schedule, indexed, up, rows, from, b, k);
      KeptOnce(schedule, indexed, from, b, k, Scanned(schedule, indexed, rows, from + 1), rows[from], r);
    }
  }

  lemma KeptOnce(
    schedule: seq<seq<Vertex>>, indexed: map<Cid, seq<Resource>>, from: nat, b: nat, k: nat, pairs: seq<Pair>,
    found: seq<Receipt>, r: Resource)
    requires DistinctTasks(schedule) && from < b < |schedule| && k < |schedule[b]| && !Names(found, schedule[b][k].cid)
    ensures (schedule[b][k].cid, r) in DropAll(pairs + PairsOf(schedule[from], indexed), found)
       <==> (schedule[b][k].cid, r) in pairs
  {
    if (schedule[b][k].cid, r) in pairs {
      KeptUnnamed(pairs, PairsOf(schedule[from], indexed), found, (schedule[b][k].cid, r));
    } else {
      NotPushed(schedule, indexed, from, b, k, pairs, found, r);
    }
  }

  lemma KeptUnnamed(pairs: seq<Pair>, more: seq<Pair>, found: seq<Receipt>, e: Pair)
    requires e in pairs && !Names(found, e.0)
    ensures e in DropAll(pairs + more, found)
  {
    DropAllKeeps(pairs + more, found);
    assert e in pairs + more;
  }

  lemma OthersRows(
    t: Tables, schedule: seq<seq<Vertex>>, indexed: map<Cid, seq<Resource>>, up: nat -> bool, rows: seq<seq<Receipt>>,
    from: nat, b: nat, k: nat)
    requires Keyed(t) && DistinctTasks(schedule) && Looked(t, schedule, indexed, up, from, rows)
    requires from < b < |schedule| && k < |schedule[b]|
    ensures !Names(rows[from], schedule[b][k].cid)
  {
    assert SitsCid(schedule, b, k, schedule[b][k].cid);
    PushedElsewhere(schedule, indexed, from, b, k, schedule[b][k].cid);
    if rows[from] != [] { FoundAre(t, schedule[from], rows[from]); }
  }

  lemma LaterClear(
    t: Tables, schedule: seq<seq<Vertex>>, indexed: map<Cid, seq<Resource>>, up: nat -> bool, rows: seq<seq<Receipt>>,
    b: nat)
    requires Keyed(t) && DistinctTasks(schedule) && b < |schedule| && AllIndexed(schedule[b], indexed)
    requires Looked(t, schedule, indexed, up, b, rows)
    ensures Clear(Scanned(schedule, indexed, rows, b + 1), schedule[b])
  {
    var pairs := Scanned(schedule, indexed, rows, b + 1);
    ScannedIs(t, schedule, indexed, up, b + 1, rows);
    forall k | 0 <= k < |schedule[b]| ensures NoneOf(pairs, schedule[b][k].cid) {
      PushedHere(schedule, indexed, b, k, pairs);
      EntriesZero(pairs, schedule[b][k].cid);
    }
  }

  lemma CompiledHave(schedule: seq<seq<Vertex>>, indexed: map<Cid, seq<Resource>>, b: nat)
    requires Compiled(schedule, indexed) && b < |schedule|
    ensures AllHave(schedule[b], indexed)
  {
    Leads(schedule, indexed, b);
  }

  /** The task has the resource in its list. */
  ghost predicate Carries(schedule: seq<seq<Vertex>>, indexed: map<Cid, seq<Resource>>, b: int, k: int, r: Resource) {
    && 0 <= b < |schedule| && 0 <= k < |schedule[b]|
    && schedule[b][k].cid in indexed && r in indexed[schedule[b][k].cid]
  }

  /** It has, and no order of the rows takes it. */
  ghost predicate Keeps(
    t: Tables, schedule: seq<seq<Vertex>>, indexed: map<Cid, seq<Resource>>, up: nat -> bool, b: int, k: int, r: Resource)
  {
    Carries(schedule, indexed, b, k, r) && !(up(b) && Losable(t, schedule[b], indexed, k, r))
  }

  /** What is lost in a scan is lost in the task's own batch, and can be. */
  lemma LostInBatch(
    t: Tables, schedule: seq<seq<Vertex>>, indexed: map<Cid, seq<Resource>>, up: nat -> bool, rows: seq<seq<Receipt>>,
    from: nat, b: nat, k: nat, r: Resource)
    requires Keyed(t) && DistinctTasks(schedule) && Compiled(schedule, indexed) && OneReceiptEach(t, schedule)
    requires from <= b && Carries(schedule, indexed, b, k, r) && Looked(t, schedule, indexed, up, from, rows)
    requires (schedule[b][k].cid, r) !in Scanned(schedule, indexed, rows, from)
    ensures up(b) && Losable(t, schedule[b], indexed, k, r)
  {
    var z := Scanned(schedule, indexed, rows, b + 1);
    CompiledHave(schedule, indexed, b);
    KeptDown(t, schedule, indexed, up, rows, from, b, k, r);
    LaterClear(t, schedule, indexed, up, rows, b);
    DistinctIn(schedule, b);
    PairsOfAre(schedule[b], indexed);
    assert (schedule[b][k].cid, r) in z + PairsOf(schedule[b], indexed);
    BatchLosesExactly(t, schedule[b], indexed, z, k, r);
  }

  /** Rows in which the batch loses the entry make the scan lose it. */
  lemma LosesInScan(
    t: Tables, schedule: seq<seq<Vertex>>, indexed: map<Cid, seq<Resource>>, up: nat -> bool, rows: seq<seq<Receipt>>,
    from: nat, b: nat, k: nat, r: Resource)
    requires Keyed(t) && DistinctTasks(schedule) && Compiled(schedule, indexed)
    requires from <= b < |schedule| && k < |schedule[b]| && Looked(t, schedule, indexed, up, from, rows)
    requires Loses(t, schedule[b], indexed, (schedule[b][k].cid, r), rows[b])
    ensures (schedule[b][k].cid, r) !in Scanned(schedule, indexed, rows, from)
  {
    CompiledHave(schedule, indexed, b);
    LaterClear(t, schedule, indexed, up, rows, b);
    KeptDown(t, schedule, indexed, up, rows, from, b, k, r);
  }

  /**
   Over every order in which the database may return rows: some order takes the resource from
   the task if and only if its batch is looked up and the entry can be taken there.
   */
  lemma EntryLostExactly(
    t: Tables, schedule: seq<seq<Vertex>>, indexed: map<Cid, seq<Resource>>, up: nat -> bool, from: nat,
    b: nat, k: nat, r: Resource)
    requires Keyed(t) && DistinctTasks(schedule) && Compiled(schedule, indexed) && OneReceiptEach(t, schedule)
    requires from <= b && Carries(schedule, indexed, b, k, r)
    ensures (exists rows :: Looked(t, schedule, indexed, up, from, rows)
                            && (schedule[b][k].cid, r) !in Scanned(schedule, indexed, rows, from))
            <==> !Keeps(t, schedule, indexed, up, b, k, r)
  {
    if rows :| Looked(t, schedule, indexed, up, from, rows)
               && (schedule[b][k].cid, r) !in Scanned(schedule, indexed, rows, from) {
      LostInBatch(t, schedule, indexed, up, rows, from, b, k, r);
    }
    if !Keeps(t, schedule, indexed, up, b, k, r) {
      CompiledHave(schedule, indexed, b);
      DistinctIn(schedule, b);
      var found := LosingOrder(t, schedule[b], indexed, k, r);
      AllBackwardsLooked(t, schedule, indexed, up, from);
      var rows := AllBackwards(t, schedule, up)[b := found];
      assert Looked(t, schedule, indexed, up, from, rows);
      LosesInScan(t, schedule, indexed, up, rows, from, b, k, r);
    }
  }

  // ---------------------------------------------------------------------------
  // When a resource is fetched
  // ---------------------------------------------------------------------------

  /** Some task from batch `from` on keeps the resource. */
  ghost predicate KeptFrom(
    t: Tables, schedule: seq<seq<Vertex>>, indexed: map<Cid, seq<Resource>>, up: nat -> bool, from: nat, r: Resource)
  {
    exists b, k :: from <= b && Keeps(t, schedule, indexed, up, b, k, r)
  }

  /** That is enough: the resource is fetched in every order of rows. */
  lemma KeeperFetched(
    t: Tables, schedule: seq<seq<Vertex>>, indexed: map<Cid, seq<Resource>>, up: nat -> bool, rows: seq<seq<Receipt>>,
    from: nat, r: Resource)
    requires Keyed(t) && DistinctTasks(schedule) && Compiled(schedule, indexed) && OneReceiptEach(t, schedule)
    requires from <= |schedule| && KeptFrom(t, schedule, indexed, up, from, r)
    requires Looked(t, schedule, indexed, up, from, rows)
    ensures r in WantedIn(Scanned(schedule, indexed, rows, from))
  {
    var b: int, k: int :| from <= b && Keeps(t, schedule, indexed, up, b, k, r);
    WantedIs(Scanned(schedule, indexed, rows, from), r);
    if (schedule[b][k].cid, r) !in Scanned(schedule, indexed, rows, from) {
      LostInBatch(t, schedule, indexed, up, rows, from, b, k, r);
    }
  }

  ghost predicate LosesAt(
    t: Tables, batch: seq<Vertex>, indexed: map<Cid, seq<Resource>>, k: int, r: Resource, found: seq<Receipt>)
  {
    && 0 <= k < |batch| && batch[k].cid in indexed && r in indexed[batch[k].cid]
    && Loses(t, batch, indexed, (batch[k].cid, r), found)
  }

  /** Rows of a batch in an order that takes the resource from its task, where there is one. */
  ghost function RowsAgainst(t: Tables, batch: seq<Vertex>, indexed: map<Cid, seq<Resource>>, up: bool, r: Resource)
    : seq<Receipt>
  {
    if !up then []
    else if exists k, found :: LosesAt(t, batch, indexed, k, r, found) then
      var k, found :| LosesAt(t, batch, indexed, k, r, found);
      found
    else Backwards(t, batch)
  }

  ghost function AllAgainst(
    t: Tables, schedule: seq<seq<Vertex>>, indexed: map<Cid, seq<Resource>>, up: nat -> bool, r: Resource)
    : seq<seq<Receipt>>
  {
    seq(|schedule|, b requires 0 <= b < |schedule| => RowsAgainst(t, schedule[b], indexed, up(b), r))
  }

  lemma AllAgainstLooked(
    t: Tables, schedule: seq<seq<Vertex>>, indexed: map<Cid, seq<Resource>>, up: nat -> bool, from: nat, r: Resource)
    requires Keyed(t) && DistinctTasks(schedule) && Compiled(schedule, indexed)
    ensures Looked(t, schedule, indexed, up, from, AllAgainst(t, schedule, indexed, up, r))
  {
    var rows := AllAgainst(t, schedule, indexed, up, r);
    forall b | from <= b < |schedule| ensures LookedAt(t, schedule[b], indexed, up(b), rows[b]) {
      DistinctIn(schedule, b);
      BackwardsFinds(t, schedule[b]);
      CompiledHave(schedule, indexed, b);
    }
  }

  /** From batch `from` on, no two tasks of one batch have the resource. */
  ghost predicate OncePerBatch(schedule: seq<seq<Vertex>>, indexed: map<Cid, seq<Resource>>, from: nat, r: Resource) {
    forall b, k, k' :: from <= b && Carries(schedule, indexed, b, k, r) && Carries(schedule, indexed, b, k', r) ==> k == k'
  }

  lemma AgainstLoses(
    t: Tables, schedule: seq<seq<Vertex>>, indexed: map<Cid, seq<Resource>>, up: nat -> bool, from: nat,
    b: nat, k: nat, r: Resource)
    requires Keyed(t) && DistinctTasks(schedule) && Compiled(schedule, indexed) && OneReceiptEach(t, schedule)
    requires from <= b && Carries(schedule, indexed, b, k, r) && !Keeps(t, schedule, indexed, up, b, k, r)
    requires OncePerBatch(schedule, indexed, from, r)
    ensures Loses(t, schedule[b], indexed, (schedule[b][k].cid, r), AllAgainst(t, schedule, indexed, up, r)[b])
  {
    CompiledHave(schedule, indexed, b);
    DistinctIn(schedule, b);
    var found := LosingOrder(t, schedule[b], indexed, k, r);
    assert LosesAt(t, schedule[b], indexed, k, r, found);
    var k': int, found': seq<Receipt> :|
      && LosesAt(t, schedule[b], indexed, k', r, found')
      && RowsAgainst(t, schedule[b], indexed, up(b), r) == found';
    assert LosesAt(t, schedule[b], indexed, k', r, found');
    assert Carries(schedule, indexed, b, k', r);
  }

  /**
   A resource is fetched in every order of rows if and only if some task from the pivot on
   keeps it, as long as no two tasks of one batch share it.
   */
  lemma ResourceFetchedExactly(
    t: Tables, schedule: seq<seq<Vertex>>, indexed: map<Cid, seq<Resource>>, up: nat -> bool, from: nat, r: Resource)
    requires Keyed(t) && DistinctTasks(schedule) && Compiled(schedule, indexed) && OneReceiptEach(t, schedule)
    requires from <= |schedule| && OncePerBatch(schedule, indexed, from, r)
    ensures (forall rows :: Looked(t, schedule, indexed, up, from, rows) ==>
               r in WantedIn(Scanned(schedule, indexed, rows, from)))
            <==> KeptFrom(t, schedule, indexed, up, from, r)
  {
    if KeptFrom(t, schedule, indexed, up, from, r) {
      forall rows | Looked(t, schedule, indexed, up, from, rows)
        ensures r in WantedIn(Scanned(schedule, indexed, rows, from))
      {
        KeeperFetched(t, schedule, indexed, up, rows, from, r);
      }
    } else {
      var rows := AllAgainst(t, schedule, indexed, up, r);
      AllAgainstLooked(t, schedule, indexed, up, from, r);
      NoneKept(t, schedule, indexed, up, from, r);
      assert Looked(t, schedule, indexed, up, from, rows) && r !in WantedIn(Scanned(schedule, indexed, rows, from));
    }
  }

  lemma NoneKept(
    t: Tables, schedule: seq<seq<Vertex>>, indexed: map<Cid, seq<Resource>>, up: nat -> bool, from: nat, r: Resource)
    requires Keyed(t) && DistinctTasks(schedule) && Compiled(schedule, indexed) && OneReceiptEach(t, schedule)
    requires from <= |schedule| && OncePerBatch(schedule, indexed, from, r)
    requires !KeptFrom(t, schedule, indexed, up, from, r)
    ensures r !in WantedIn(Scanned(schedule, indexed, AllAgainst(t, schedule, indexed, up, r), from))
  {
    var rows := AllAgainst(t, schedule, indexed, up, r);
    var pairs := Scanned(schedule, indexed, rows, from);
    AllAgainstLooked(t, schedule, indexed, up, from, r);
    ScannedIs(t, schedule, indexed, up, from, rows);
    WantedIs(pairs, r);
    forall c ensures (c, r) !in pairs {
      if (c, r) in pairs {
        var b: int, k: int :| from <= b && SitsCid(schedule, b, k, (c, r).0);
        assert Carries(schedule, indexed, b, k, r) && !Keeps(t, schedule, indexed, up, b, k, r);
        AgainstLoses(t, schedule, indexed, up, from, b, k, r);
        LosesInScan(t, schedule, indexed, up, rows, from, b, k, r);
      }
    }
  }
}
