/**
 The receipt store: a table of receipts keyed by receipt CID, a table of
 workflows, and the table joining the two. Inserts do nothing on a conflict.
 */
module Database {
  import opened Wrappers
  import opened IpldModel
  import opened Inputs

  /** The receipt's CID is a hash of everything but the instruction. */
  datatype Receipt = Receipt(cid: Cid, ran: Cid, instruction: Cid, out: InstructionResult<Ipld>, meta: Ipld)

  datatype DbError = ForeignKey

  /** The three tables as values, keyed as their primary keys are. */
  datatype Tables = Tables(receipts: map<Cid, Receipt>, workflows: set<Cid>, joins: set<(Cid, Cid)>)

  /** Rows are stored under their own key. */
  ghost predicate Keyed(t: Tables) {
    forall c :: c in t.receipts ==> t.receipts[c].cid == c
  }

  function Stored(t: Tables, r: Receipt): Tables {
    if r.cid in t.receipts then t else t.(receipts := t.receipts[r.cid := r])
  }

  /** `commit_receipt`: both inserts, or neither when the workflow is not stored. */
  function Committed(t: Tables, workflow: Cid, r: Receipt): Tables {
    if workflow in t.workflows then Stored(t, r).(joins := t.joins + {(workflow, r.cid)}) else t
  }

  ghost predicate HasInstruction(t: Tables, c: Cid) {
    exists k :: k in t.receipts && t.receipts[k].instruction == c
  }

  /** Some order of the rows whose instruction is asked for, each row once. */
  ghost predicate Finds(t: Tables, asked: seq<Cid>, found: seq<Receipt>) {
    && (forall r :: r in found <==> r.cid in t.receipts && t.receipts[r.cid] == r && r.instruction in asked)
    && (forall i, j :: 0 <= i < j < |found| ==> found[i].cid != found[j].cid)
  }

  ghost predicate DistinctRows(rs: seq<Receipt>) {
    forall i, j :: 0 <= i < j < |rs| ==> rs[i].cid != rs[j].cid
  }

  /** The rows by primary key. */
  function Rows(rs: seq<Receipt>): map<Cid, Receipt> {
    if rs == [] then map[] else Rows(rs[..|rs| - 1])[rs[|rs| - 1].cid := rs[|rs| - 1]]
  }

  lemma {:induction false} RowsAre(rs: seq<Receipt>)
    requires DistinctRows(rs)
    ensures forall r :: r in rs <==> r.cid in Rows(rs) && Rows(rs)[r.cid] == r
    ensures forall c :: c in Rows(rs) ==> Rows(rs)[c].cid == c
  {
    if rs != [] {
      var front, last := rs[..|rs| - 1], rs[|rs| - 1];
      RowsAre(front);
      assert rs == front + [last];
      forall r | r in front ensures r.cid != last.cid { }
    }
  }

  class Db {
    var receipts: seq<Receipt>
    var workflows: seq<Cid>
    var joins: seq<(Cid, Cid)>

    /** Primary keys are unique. */
    ghost predicate Valid()
      reads this
    {
      && DistinctRows(receipts)
      && (forall i, j :: 0 <= i < j < |joins| ==> joins[i] != joins[j])
    }

    ghost function View(): Tables
      reads this
    {
      Tables(
        Rows(receipts),
        set w | w in workflows,
        set j | j in joins)
    }

    constructor ()
      ensures Valid() && View() == Tables(map[], {}, {})
    {
      receipts, workflows, joins := [], [], [];
    }

    /** On a conflict do nothing, and return no row. */
    method StoreReceipt(r: Receipt) returns (stored: Option<Receipt>)
      requires Valid()
      modifies this
      ensures Valid() && View() == Stored(old(View()), r)
      ensures stored == if r.cid in old(View()).receipts then None else Some(r)
    {
      RowsAre(receipts);
      if exists i :: 0 <= i < |receipts| && receipts[i].cid == r.cid {
        var i :| 0 <= i < |receipts| && receipts[i].cid == r.cid;
        assert receipts[i] in receipts;
        return None;
      }
      assert (receipts + [r])[..|receipts|] == receipts;
      receipts := receipts + [r];
      stored := Some(r);
    }

    method StoreReceipts(rs: seq<Receipt>) returns (count: nat)
      requires Valid()
      modifies this
      ensures Valid() && View() == Apply(old(View()), seq(|rs|, k requires 0 <= k < |rs| => StoreOp(rs[k])))
      ensures count == |View().receipts| - |old(View()).receipts|
    {
      count := 0;
      ghost var ops := seq(|rs|, k requires 0 <= k < |rs| => StoreOp(rs[k]));
      for k := 0 to |rs|
        invariant Valid() && View() == Apply(old(View()), ops[..k])
        invariant count == |View().receipts| - |old(View()).receipts|
      {
        assert ops[..k + 1][..k] == ops[..k];
        var stored := StoreReceipt(rs[k]);
        if stored.Some? { count := count + 1; }
      }
      assert ops[..|rs|] == ops;
    }

    method StoreWorkflow(w: Cid)
      requires Valid()
      modifies this
      ensures Valid() && View() == old(View()).(workflows := old(View()).workflows + {w})
    {
      if w !in workflows { workflows := workflows + [w]; }
    }

    /** Both tables in one transaction; a missing workflow fails the foreign key and rolls back. */
    method CommitReceipt(workflow: Cid, r: Receipt) returns (res: Result<Receipt, DbError>)
      requires Valid()
      modifies this
      ensures Valid() && View() == Committed(old(View()), workflow, r)
      ensures res == if workflow in old(View()).workflows then Ok(r) else Err(ForeignKey)
    {
      if workflow !in workflows { return Err(ForeignKey); }
      var stored := StoreReceipt(r);
      if (workflow, r.cid) !in joins {
        joins := joins + [(workflow, r.cid)];
      }
      res := Ok(if stored.Some? then stored.value else r);
    }

    /** The rows of the instructions asked for; callers may rely on no order. */
    method FindInstructionPointers(asked: seq<Cid>) returns (found: seq<Receipt>)
      requires Valid()
      ensures Finds(View(), asked, found)
    {
      found := [];
      for k := 0 to |receipts|
        invariant forall r :: r in found <==> r in receipts[..k] && r.instruction in asked
        invariant forall i, j :: 0 <= i < j < |found| ==> found[i].cid != found[j].cid
      {
        assert receipts[..k + 1] == receipts[..k] + [receipts[k]];
        forall r | r in receipts[..k] ensures r.cid != receipts[k].cid { }
        if receipts[k].instruction in asked { found := found + [receipts[k]]; }
      }
      assert receipts[..|receipts|] == receipts;
      RowsAre(receipts);
    }

    method FindInstructionByCid(c: Cid) returns (found: Option<Receipt>)
      requires Valid()
      ensures found.Some? <==> HasInstruction(View(), c)
      ensures found.Some? ==> found.value.instruction == c && found.value.cid in View().receipts
      ensures found.Some? ==> View().receipts[found.value.cid] == found.value
    {
      RowsAre(receipts);
      var rows := FindInstructionPointers([c]);
      if rows == [] {
        forall k | k in View().receipts ensures View().receipts[k].instruction != c {
          assert View().receipts[k] !in rows;
        }
        return None;
      }
      assert rows[0] in rows;
      found := Some(rows[0]);
    }

    /** The receipts committed for a stored workflow. */
    method WorkflowProgress(workflow: Cid) returns (progress: Option<seq<Cid>>)
      requires Valid()
      ensures progress.Some? <==> workflow in View().workflows
      ensures progress.Some? ==>
                && (forall c :: c in progress.value <==> (workflow, c) in View().joins)
                && (forall i, j :: 0 <= i < j < |progress.value| ==> progress.value[i] != progress.value[j])
    {
      if workflow !in workflows { return None; }
      var cids := [];
      for k := 0 to |joins|
        invariant forall c :: c in cids <==> (workflow, c) in joins[..k]
        invariant forall i, j :: 0 <= i < j < |cids| ==> cids[i] != cids[j]
      {
        assert joins[..k + 1] == joins[..k] + [joins[k]];
        if joins[k].0 == workflow {
          assert (workflow, joins[k].1) !in joins[..k];
          cids := cids + [joins[k].1];
        }
      }
      assert joins[..|joins|] == joins;
      progress := Some(cids);
    }
  }

  // ---------------------------------------------------------------------------
  // Convergence
  // ---------------------------------------------------------------------------

  /** A commit of a run of a workflow, or a receipt stored from gossip. */
  datatype Op = CommitOp(workflow: Cid, receipt: Receipt) | StoreOp(receipt: Receipt)

  function ApplyOne(t: Tables, op: Op): Tables {
    match op
    case CommitOp(w, r) => Committed(t, w, r)
    case StoreOp(r) => Stored(t, r)
  }

  function Apply(t: Tables, ops: seq<Op>): Tables {
    if ops == [] then t else ApplyOne(Apply(t, ops[..|ops| - 1]), ops[|ops| - 1])
  }

  /** The operation is not rolled back. */
  predicate Effective(t: Tables, op: Op) {
    op.CommitOp? ==> op.workflow in t.workflows
  }

  /** Receipts that still compete for a key are equal. */
  ghost predicate Coherent(t: Tables, ops: seq<Op>) {
    forall a, b :: a in ops && b in ops && Effective(t, a) && Effective(t, b) ==>
      (a.receipt.cid == b.receipt.cid && a.receipt.cid !in t.receipts ==> a.receipt == b.receipt)
  }

  /** `c` is the key of a receipt some operation stores. */
  ghost predicate Offers(t: Tables, ops: seq<Op>, r: Receipt) {
    exists op :: op in ops && Effective(t, op) && op.receipt == r
  }

  /** What a run of operations leaves: a closed form in which order and repetition do not occur. */
  ghost predicate Holds(t: Tables, ops: seq<Op>, u: map<Cid, Receipt>) {
    && (forall c :: c in t.receipts ==> c in u && u[c] == t.receipts[c])
    && (forall c :: c in u && c !in t.receipts ==> u[c].cid == c && Offers(t, ops, u[c]))
    && (forall r :: Offers(t, ops, r) ==> r.cid in u)
  }

  ghost predicate JoinRows(t: Tables, ops: seq<Op>, joins: set<(Cid, Cid)>) {
    forall w, c :: (w, c) in joins <==>
      (w, c) in t.joins || (w in t.workflows && exists r :: CommitOp(w, r) in ops && r.cid == c)
  }

  lemma HoldsStep(t: Tables, ops: seq<Op>, u: map<Cid, Receipt>, op: Op)
    requires Holds(t, ops, u)
    ensures Holds(t, ops + [op], if Effective(t, op) && op.receipt.cid !in u then u[op.receipt.cid := op.receipt] else u)
  {
    var more := ops + [op];
    assert more[|ops|] == op;
    forall r ensures Offers(t, more, r) <==> Offers(t, ops, r) || (Effective(t, op) && op.receipt == r) {
      if Offers(t, ops, r) {
        var o :| o in ops && Effective(t, o) && o.receipt == r;
        assert o in more;
      }
    }
  }

  lemma JoinRowsStep(t: Tables, ops: seq<Op>, joins: set<(Cid, Cid)>, op: Op)
    requires JoinRows(t, ops, joins)
    ensures JoinRows(t, ops + [op],
              if op.CommitOp? && Effective(t, op) then joins + {(op.workflow, op.receipt.cid)} else joins)
  {
    forall w, r ensures CommitOp(w, r) in ops + [op] <==> CommitOp(w, r) in ops || op == CommitOp(w, r) { }
  }

  lemma {:induction false} ApplyIs(t: Tables, ops: seq<Op>)
    ensures var u := Apply(t, ops);
            u.workflows == t.workflows && Holds(t, ops, u.receipts) && JoinRows(t, ops, u.joins)
  {
    if ops != [] {
      var front, last := ops[..|ops| - 1], ops[|ops| - 1];
      ApplyIs(t, front);
      assert ops == front + [last];
      HoldsStep(t, front, Apply(t, front).receipts, last);
      JoinRowsStep(t, front, Apply(t, front).joins, last);
    }
  }

  /** The same operations, in any order and with any repetition, leave equal tables. */
  lemma Convergence(t: Tables, ops: seq<Op>, ops': seq<Op>)
    requires Coherent(t, ops)
    requires forall op :: op in ops <==> op in ops'
    ensures Apply(t, ops) == Apply(t, ops')
  {
    ApplyIs(t, ops);
    ApplyIs(t, ops');
    var u, u' := Apply(t, ops), Apply(t, ops');
    forall r ensures Offers(t, ops, r) <==> Offers(t, ops', r) { }
    forall c ensures c in u.receipts <==> c in u'.receipts {
      if c in u.receipts && c !in t.receipts { assert Offers(t, ops', u.receipts[c]); }
      if c in u'.receipts && c !in t.receipts { assert Offers(t, ops, u'.receipts[c]); }
    }
    forall c | c in u.receipts ensures u.receipts[c] == u'.receipts[c] {
      if c !in t.receipts {
        var a :| a in ops && Effective(t, a) && a.receipt == u.receipts[c];
        var b :| b in ops && Effective(t, b) && b.receipt == u'.receipts[c];
      }
    }
    assert u.receipts == u'.receipts;
    forall x | x in u.joins + u'.joins ensures x in u.joins && x in u'.joins {
      assert x == (x.0, x.1);
    }
    assert u.joins == u'.joins;
  }

  /** Two stores commute exactly when they do not compete for a free key with different receipts. */
  lemma OrderMattersExactly(t: Tables, a: Receipt, b: Receipt)
    ensures Stored(Stored(t, a), b) == Stored(Stored(t, b), a)
            <==> (a.cid == b.cid && a.cid !in t.receipts ==> a == b)
  {
    var ab, ba := Stored(Stored(t, a), b), Stored(Stored(t, b), a);
    if a.cid == b.cid && a.cid !in t.receipts {
      assert ab.receipts[a.cid] == a && ba.receipts[a.cid] == b;
    } else {
      assert ab.receipts == ba.receipts;
    }
  }

  /** The progress of a workflow is exactly the receipts committed for it, whatever else was stored. */
  lemma ProgressIs(t: Tables, ops: seq<Op>, workflow: Cid)
    requires workflow in t.workflows && forall c :: (workflow, c) !in t.joins
    ensures forall c :: (workflow, c) in Apply(t, ops).joins <==>
                        exists r :: CommitOp(workflow, r) in ops && r.cid == c
  {
    ApplyIs(t, ops);
  }
}
