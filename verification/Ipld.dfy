/**
 The IPLD data model the runtime computes with. A map keeps its entries in the
 order of a `BTreeMap<String, _>`, because that order is visible wherever a map
 is iterated.
 */
module IpldModel {

  /** A content identifier. Only its identity matters to the runtime. */
  datatype Cid = Cid(id: nat)

  type Byte = b: int | 0 <= b < 256

  datatype Ipld =
    | Null
    | Bool(b: bool)
    | Integer(n: int)
    | Float(f: real)
    | String(s: string)
    | Bytes(bytes: seq<Byte>)
    | List(items: seq<Ipld>)
    | Map(entries: seq<Entry>)
    | Link(cid: Cid)

  datatype Entry = Entry(key: string, value: Ipld)

  /** Rust's order on strings: lexicographic. */
  predicate Less(a: string, b: string) {
    && |b| > 0
    && (|a| == 0 || a[0] < b[0] || (a[0] == b[0] && Less(a[1..], b[1..])))
  }

  lemma {:induction false} LessAsymmetric(a: string, b: string)
    requires Less(a, b)
    ensures a != b && !Less(b, a)
  {
    if |a| > 0 && a[0] == b[0] {
      LessAsymmetric(a[1..], b[1..]);
    }
  }

  lemma {:induction false} LessTotal(a: string, b: string)
    ensures a == b || Less(a, b) || Less(b, a)
  {
    if |a| > 0 && |b| > 0 && a[0] == b[0] {
      LessTotal(a[1..], b[1..]);
      assert a == [a[0]] + a[1..] && b == [b[0]] + b[1..];
    }
  }

  lemma {:induction false} LessTransitive(a: string, b: string, c: string)
    requires Less(a, b) && Less(b, c)
    ensures Less(a, c)
  {
    if |a| > 0 && a[0] == b[0] == c[0] {
      LessTransitive(a[1..], b[1..], c[1..]);
    }
  }

  /** The strings agree up to the position, where the first ends or has the lower character. */
  ghost predicate FirstBelow(a: string, b: string, n: int) {
    && 0 <= n <= |a| && n < |b| && (n == |a| || a[n] < b[n])
    && forall k :: 0 <= k < n ==> a[k] == b[k]
  }

  lemma {:induction false} LessExactly(a: string, b: string)
    ensures Less(a, b) <==> exists n :: FirstBelow(a, b, n)
  {
    if |b| == 0 {
    } else if |a| == 0 || a[0] < b[0] {
      assert FirstBelow(a, b, 0);
    } else if a[0] == b[0] {
      LessExactly(a[1..], b[1..]);
      if n :| FirstBelow(a[1..], b[1..], n) {
        assert FirstBelow(a, b, n + 1) by {
          forall k | 0 <= k < n + 1 ensures a[k] == b[k] { assert k > 0 ==> a[1..][k - 1] == b[1..][k - 1]; }
        }
      }
      if n :| FirstBelow(a, b, n) {
        assert FirstBelow(a[1..], b[1..], n - 1);
      }
    }
  }

  /** The key order of a `BTreeMap`: strictly ascending, so keys are unique. */
  ghost predicate Ascending(es: seq<Entry>) {
    forall i, j :: 0 <= i < j < |es| ==> Less(es[i].key, es[j].key)
  }

  /** Every map inside the value is a `BTreeMap`. */
  ghost predicate WellFormed(i: Ipld)
    decreases i
  {
    match i
    case List(items) => forall k :: 0 <= k < |items| ==> WellFormed(items[k])
    case Map(es) => Ascending(es) && forall k :: 0 <= k < |es| ==> WellFormed(es[k].value)
    case _ => true
  }

  /** `BTreeMap::insert`: a key that is present gets the new value. */
  function Insert(es: seq<Entry>, e: Entry): (r: seq<Entry>) {
    if es == [] then [e]
    else if es[0].key == e.key then [e] + es[1..]
    else if Less(e.key, es[0].key) then [e] + es
    else [es[0]] + Insert(es[1..], e)
  }

  /** A `BTreeMap` collected from pairs inserted from left to right. */
  function Collect(ps: seq<Entry>): (r: seq<Entry>) {
    if ps == [] then [] else Insert(Collect(ps[..|ps| - 1]), ps[|ps| - 1])
  }

  lemma {:induction false} InsertKeepsOrder(es: seq<Entry>, e: Entry)
    requires Ascending(es)
    ensures Ascending(Insert(es, e))
    ensures forall x :: x in Insert(es, e) <==> x == e || (x in es && x.key != e.key)
  {
    if es != [] {
      forall k | 0 < k < |es| ensures es[k].key != es[0].key {
        LessAsymmetric(es[0].key, es[k].key);
      }
      if es[0].key == e.key {
        assert es == [es[0]] + es[1..];
      } else if Less(e.key, es[0].key) {
        forall k | 0 <= k < |es| ensures Less(e.key, es[k].key) && es[k].key != e.key {
          if k > 0 { LessTransitive(e.key, es[0].key, es[k].key); }
          LessAsymmetric(e.key, es[k].key);
        }
      } else {
        LessTotal(e.key, es[0].key);
        InsertKeepsOrder(es[1..], e);
        var r := Insert(es[1..], e);
        forall k | 0 <= k < |r| ensures Less(es[0].key, r[k].key) {
          assert r[k] in r;
        }
        assert es == [es[0]] + es[1..];
      }
    }
  }

  lemma {:induction false} InsertLast(es: seq<Entry>, e: Entry)
    requires forall k :: 0 <= k < |es| ==> Less(es[k].key, e.key)
    ensures Insert(es, e) == es + [e]
  {
    if es != [] {
      LessAsymmetric(es[0].key, e.key);
      InsertLast(es[1..], e);
      assert es == [es[0]] + es[1..];
    }
  }

  /** No later pair has the key. */
  ghost predicate LastOfKey(ps: seq<Entry>, k: int) {
    0 <= k < |ps| && forall j :: k < j < |ps| ==> ps[j].key != ps[k].key
  }

  /** The entry is that of the last pair with its key. */
  ghost predicate Wins(ps: seq<Entry>, e: Entry) {
    exists k :: LastOfKey(ps, k) && ps[k] == e
  }

  lemma LastOfMore(front: seq<Entry>, last: Entry, k: int)
    requires 0 <= k < |front|
    ensures LastOfKey(front + [last], k) <==> LastOfKey(front, k) && front[k].key != last.key
  {
    var ps := front + [last];
    assert ps[|front|] == last && ps[k] == front[k];
    if LastOfKey(ps, k) {
      forall j | k < j < |front| ensures front[j].key != front[k].key { assert ps[j] == front[j]; }
    }
    if LastOfKey(front, k) && front[k].key != last.key {
      forall j | k < j < |ps| ensures ps[j].key != ps[k].key { assert j < |front| ==> ps[j] == front[j]; }
    }
  }

  lemma WinsLast(front: seq<Entry>, last: Entry, e: Entry)
    ensures Wins(front + [last], e) <==> e == last || (Wins(front, e) && e.key != last.key)
  {
    var ps := front + [last];
    assert LastOfKey(ps, |front|) && ps[|front|] == last;
    if k :| LastOfKey(front, k) && front[k] == e && e.key != last.key {
      LastOfMore(front, last, k);
      assert ps[k] == e;
    }
    if k :| LastOfKey(ps, k) && ps[k] == e && e != last {
      LastOfMore(front, last, k);
      assert front[k] == e;
    }
  }

  /** What is collected is in key order, and of the pairs with one key it holds exactly the last. */
  lemma {:induction false} CollectedExactly(ps: seq<Entry>)
    ensures Ascending(Collect(ps))
    ensures forall e :: e in Collect(ps) <==> Wins(ps, e)
  {
    if ps != [] {
      var front, last := ps[..|ps| - 1], ps[|ps| - 1];
      CollectedExactly(front);
      InsertKeepsOrder(Collect(front), last);
      assert ps == front + [last];
      forall e ensures e in Collect(ps) <==> Wins(ps, e) { WinsLast(front, last, e); }
    }
  }

  /** Collecting the entries of a `BTreeMap` gives the same map back. */
  lemma {:induction false} CollectAscending(ps: seq<Entry>)
    requires Ascending(ps)
    ensures Collect(ps) == ps
  {
    if ps != [] {
      var front := ps[..|ps| - 1];
      CollectAscending(front);
      InsertLast(front, ps[|ps| - 1]);
      assert ps == front + [ps[|ps| - 1]];
    }
  }
}
