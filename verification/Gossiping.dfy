/**
 A receipt that arrives by gossip while a lookup for its instruction is under way: exactly
 when the order of the two does not matter.
 */
module Gossiping {
  import opened Wrappers
  import opened IpldModel
  import opened Inputs
  import opened Workflows
  import opened Database
  import opened Scheduler
  import opened Worker
  import opened WorkerProgress
  import opened NestedLinks
  import opened Interleaving

  /** A look in which everything works: a row if there is one, else what the network answers. */
  ghost predicate CalmLook(st: State, net: Net, c: Cid, o: Outside) {
    o.conn && o.commits && o.found == net(c) && (HasInstruction(st.tables, c) ==> o.row.Some?)
  }

  /** Looks of one occurrence, and gossip of one receipt, in any order. */
  ghost predicate LooksAndGossip(job: Job, st: State, net: Net, task: nat, at: Path, r: Receipt, evs: seq<Event>) {
    evs == [] ||
    (var front, last := evs[..|evs| - 1], evs[|evs| - 1];
     && LooksAndGossip(job, st, net, task, at, r, front) && Run(job, st, front).Some?
     && (last == Gossip(r) || (last.Look? && last.task == task && last.at == at
                               && CalmLook(Run(job, st, front).value, net, r.instruction, last.outside))))
  }

  /** The receipt was heard and the lookup was answered. */
  ghost predicate Both(job: Job, st: State, net: Net, task: nat, at: Path, r: Receipt, evs: seq<Event>) {
    && LooksAndGossip(job, st, net, task, at, r, evs) && Gossip(r) in evs && Run(job, st, evs).Some?
    && task in Run(job, st, evs).value.running && Answered(Run(job, st, evs).value.running[task].lookups, at)
  }

  // ---------------------------------------------------------------------------
  // When the receipt was foretold
  // ---------------------------------------------------------------------------

  ghost function Answer(job: Job, st: State, r: Receipt): InstructionResult<Arg> {
    var c := r.instruction;
    if c in st.linkmap then st.linkmap[c]
    else if RCid(c) in job.resources then ResOk(ArgIpld(Bytes(job.resources[RCid(c)])))
    else OutputAsArg(r)
  }

  ghost predicate StageOk(job: Job, st: State, r: Receipt, s: Stage) {
    match s
    case AtLinkmap => true
    case AtResources => r.instruction !in st.linkmap
    case AtDb => r.instruction !in st.linkmap && RCid(r.instruction) !in job.resources
    case AtNetwork => false
    case Done(a) => a == Some(Answer(job, st, r))
  }

  /** The state with the receipt stored or not, and the lookup at a stage or not begun. */
  ghost function Mid(st: State, task: nat, at: Path, r: Receipt, heard: bool, s: Stage): State
    requires task in st.running
  {
    var t := if heard then Stored(st.tables, r) else st.tables;
    if s == AtLinkmap then st.(tables := t) else AtStage(st.(tables := t), task, at, s)
  }

  lemma ForetoldLook(job: Job, st: State, net: Net, task: nat, at: Path, r: Receipt, heard: bool, s: Stage, o: Outside)
    requires Occurs(st, task, at, r.instruction) && Foretold(job, st, r) && StageOk(job, st, r, s) && !s.Done?
    requires CalmLook(Mid(st, task, at, r, heard, s), net, r.instruction, o)
    requires Next(job, Mid(st, task, at, r, heard, s), Look(task, at, o)).Some?
    ensures exists s' :: s' != AtLinkmap && StageOk(job, st, r, s')
              && Next(job, Mid(st, task, at, r, heard, s), Look(task, at, o)) == Some(Mid(st, task, at, r, heard, s'))
  {
    var mid := Mid(st, task, at, r, heard, s);
    var c := r.instruction;
    var s' := ResolveCid(job, mid, c, s, o).value.stage;
    if s == AtDb {
      assert HasInstruction(mid.tables, c) by {
        var k :| k in st.tables.receipts && st.tables.receipts[k].instruction == c;
        assert k in mid.tables.receipts && mid.tables.receipts[k].instruction == c;
      }
      var row := o.row.value;
      assert row in st.tables.receipts ==> IsRow(st.tables, row, c);
    }
    assert StageOk(job, st, r, s') && s' != AtLinkmap;
    MidMoves(st, task, at, r, heard, s, s');
  }

  lemma MidMoves(st: State, task: nat, at: Path, r: Receipt, heard: bool, s: Stage, s': Stage)
    requires task in st.running && s' != AtLinkmap
    ensures AtStage(Mid(st, task, at, r, heard, s), task, at, s') == Mid(st, task, at, r, heard, s')
  {
    var t := if heard then Stored(st.tables, r) else st.tables;
    if s != AtLinkmap { AtStageAgain(st.(tables := t), task, at, s, s'); }
  }

  lemma GossipMoves(st: State, task: nat, at: Path, r: Receipt, heard: bool, s: Stage)
    requires task in st.running
    ensures var mid := Mid(st, task, at, r, heard, s);
            mid.(tables := Stored(mid.tables, r)) == Mid(st, task, at, r, true, s)
  {
    assert Stored(Stored(st.tables, r), r) == Stored(st.tables, r);
  }

  lemma LastGossip(evs: seq<Event>, r: Receipt)
    requires evs != []
    ensures Gossip(r) in evs <==> Gossip(r) in evs[..|evs| - 1] || evs[|evs| - 1] == Gossip(r)
  {
    assert evs == evs[..|evs| - 1] + [evs[|evs| - 1]];
  }

  /** If it was foretold, only two things change: the receipt is stored, and the lookup moves to its one answer. */
  lemma {:induction false} ForetoldRuns(
    job: Job, st: State, net: Net, task: nat, at: Path, r: Receipt, evs: seq<Event>) returns (s: Stage)
    requires Occurs(st, task, at, r.instruction) && Foretold(job, st, r)
    requires LooksAndGossip(job, st, net, task, at, r, evs) && Run(job, st, evs).Some?
    ensures StageOk(job, st, r, s) && Run(job, st, evs) == Some(Mid(st, task, at, r, Gossip(r) in evs, s))
  {
    if evs == [] {
      s := AtLinkmap;
    } else {
      var front, last := evs[..|evs| - 1], evs[|evs| - 1];
      s := ForetoldRuns(job, st, net, task, at, r, front);
      LastGossip(evs, r);
      if last == Gossip(r) {
        GossipMoves(st, task, at, r, Gossip(r) in front, s);
      } else {
        s := LookMovesOn(job, st, net, task, at, r, Gossip(r) in front, s, last.outside);
      }
    }
  }

  lemma LookMovesOn(job: Job, st: State, net: Net, task: nat, at: Path, r: Receipt, heard: bool, s: Stage, o: Outside)
    returns (s': Stage)
    requires Occurs(st, task, at, r.instruction) && Foretold(job, st, r) && StageOk(job, st, r, s)
    requires CalmLook(Mid(st, task, at, r, heard, s), net, r.instruction, o)
    requires Next(job, Mid(st, task, at, r, heard, s), Look(task, at, o)).Some?
    ensures StageOk(job, st, r, s')
    ensures Next(job, Mid(st, task, at, r, heard, s), Look(task, at, o)) == Some(Mid(st, task, at, r, heard, s'))
  {
    assert !s.Done?;
    ForetoldLook(job, st, net, task, at, r, heard, s, o);
    s' :| s' != AtLinkmap && StageOk(job, st, r, s')
          && Next(job, Mid(st, task, at, r, heard, s), Look(task, at, o)) == Some(Mid(st, task, at, r, heard, s'));
  }

  lemma ForetoldEnds(job: Job, st: State, net: Net, task: nat, at: Path, r: Receipt, evs: seq<Event>)
    requires Occurs(st, task, at, r.instruction) && Foretold(job, st, r) && Both(job, st, net, task, at, r, evs)
    ensures Run(job, st, evs) == Some(Mid(st, task, at, r, true, Done(Some(Answer(job, st, r)))))
  {
    var s := ForetoldRuns(job, st, net, task, at, r, evs);
  }

  // ---------------------------------------------------------------------------
  // When it was not
  // ---------------------------------------------------------------------------

  lemma CalmOne(job: Job, st: State, net: Net, task: nat, at: Path, r: Receipt, front: seq<Event>, mid: State, ev: Event)
    requires LooksAndGossip(job, st, net, task, at, r, front) && Run(job, st, front) == Some(mid)
    requires ev == Gossip(r) || (ev.Look? && ev.task == task && ev.at == at && CalmLook(mid, net, r.instruction, ev.outside))
    ensures LooksAndGossip(job, st, net, task, at, r, front + [ev])
    ensures Run(job, st, front + [ev]) == Next(job, mid, ev)
  {
    assert (front + [ev])[..|front|] == front;
  }

  /** Two looks pass the linkmap and the resources, whatever the outside says. */
  lemma ToDatabase(
    job: Job, st: State, net: Net, task: nat, at: Path, r: Receipt, front: seq<Event>, mid: State, o: Outside)
    requires LooksAndGossip(job, st, net, task, at, r, front) && Run(job, st, front) == Some(mid)
    requires Occurs(mid, task, at, r.instruction) && NestedLinks.Remote(job, mid, r.instruction)
    requires CalmLook(mid, net, r.instruction, o)
    ensures LooksAndGossip(job, st, net, task, at, r, front + [Look(task, at, o)] + [Look(task, at, o)])
    ensures Run(job, st, front + [Look(task, at, o)] + [Look(task, at, o)]) == Some(AtStage(mid, task, at, AtDb))
  {
    var look, s1 := Look(task, at, o), AtStage(mid, task, at, AtResources);
    AtStageAgain(mid, task, at, AtResources, AtDb);
    CalmOne(job, st, net, task, at, r, front, mid, look);
    assert Next(job, mid, look) == Some(s1);
    CalmOne(job, st, net, task, at, r, front + [look], s1, look);
  }

  /** A lookup that is answered by a row. */
  lemma RowRun(
    job: Job, st: State, net: Net, task: nat, at: Path, r: Receipt, front: seq<Event>, mid: State, row: Cid)
    returns (evs: seq<Event>)
    requires LooksAndGossip(job, st, net, task, at, r, front) && Run(job, st, front) == Some(mid)
    requires Occurs(mid, task, at, r.instruction) && NestedLinks.Remote(job, mid, r.instruction)
    requires IsRow(mid.tables, row, r.instruction)
    ensures LooksAndGossip(job, st, net, task, at, r, evs) && front <= evs
    ensures Run(job, st, evs) == Some(AtStage(mid, task, at, Done(Some(OutputAsArg(mid.tables.receipts[row])))))
  {
    var c, look := r.instruction, Look(task, at, Outside(true, Some(row), net(r.instruction), true));
    ToDatabase(job, st, net, task, at, r, front, mid, look.outside);
    AtStageAgain(mid, task, at, AtDb, Done(Some(OutputAsArg(mid.tables.receipts[row]))));
    CalmOne(job, st, net, task, at, r, front + [look] + [look], AtStage(mid, task, at, AtDb), look);
    evs := front + [look] + [look] + [look];
  }

  /** A lookup that no row answers goes to the network. */
  lemma NetRun(job: Job, st: State, net: Net, task: nat, at: Path, r: Receipt) returns (evs: seq<Event>)
    requires Occurs(st, task, at, r.instruction) && NestedLinks.Remote(job, st, r.instruction)
    requires !HasInstruction(st.tables, r.instruction)
    requires net(r.instruction).Some? ==> net(r.instruction).value.instruction == r.instruction
    ensures LooksAndGossip(job, st, net, task, at, r, evs) && Run(job, st, evs).Some?
    ensures var end := Run(job, st, evs).value;
            && task in end.running && Answered(end.running[task].lookups, at)
            && (net(r.instruction).Some? ==> r.instruction in end.linkmap)
            && (net(r.instruction).None? ==> end.running[task].lookups[at] == Done(None))
  {
    var c, look := r.instruction, Look(task, at, Outside(true, None, net(r.instruction), true));
    var s2, s3 := AtStage(st, task, at, AtDb), AtStage(st, task, at, AtNetwork);
    ToDatabase(job, st, net, task, at, r, [], st, look.outside);
    assert [] + [look] + [look] == [look] + [look];
    AtStageAgain(st, task, at, AtDb, AtNetwork);
    CalmOne(job, st, net, task, at, r, [look] + [look], s2, look);
    assert Next(job, s2, look) == Some(s3);
    CalmOne(job, st, net, task, at, r, [look] + [look] + [look], s3, look);
    evs := [look] + [look] + [look] + [look];
    assert Next(job, s3, look).Some?;
  }

  /** The receipt first: it is found as a row, and neither linked nor committed for the workflow. */
  lemma GossipFirst(job: Job, st: State, net: Net, task: nat, at: Path, r: Receipt) returns (evs: seq<Event>)
    requires Occurs(st, task, at, r.instruction) && NestedLinks.Remote(job, st, r.instruction)
    requires r.cid !in st.tables.receipts
    ensures Both(job, st, net, task, at, r, evs)
    ensures var st' := st.(tables := Stored(st.tables, r));
            Run(job, st, evs) == Some(AtStage(st', task, at, Done(Some(OutputAsArg(r)))))
  {
    var st' := st.(tables := Stored(st.tables, r));
    CalmOne(job, st, net, task, at, r, [], st, Gossip(r));
    assert [] + [Gossip(r)] == [Gossip(r)];
    evs := RowRun(job, st, net, task, at, r, [Gossip(r)], st', r.cid);
    assert evs[0] == Gossip(r);
  }

  /** The receipt last. */
  lemma GossipLast(job: Job, st: State, net: Net, task: nat, at: Path, r: Receipt, front: seq<Event>)
    returns (evs: seq<Event>)
    requires LooksAndGossip(job, st, net, task, at, r, front) && Run(job, st, front).Some?
    requires var mid := Run(job, st, front).value; task in mid.running && Answered(mid.running[task].lookups, at)
    ensures Both(job, st, net, task, at, r, evs)
    ensures var mid := Run(job, st, front).value;
            Run(job, st, evs) == Some(mid.(tables := Stored(mid.tables, r)))
  {
    CalmOne(job, st, net, task, at, r, front, Run(job, st, front).value, Gossip(r));
    evs := front + [Gossip(r)];
    assert evs[|front|] == Gossip(r);
  }

  /** An unforetold receipt and a lookup for its instruction race. */
  lemma GossipRaces(job: Job, st: State, net: Net, task: nat, at: Path, r: Receipt)
    returns (evs: seq<Event>, evs': seq<Event>)
    requires Occurs(st, task, at, r.instruction) && !Foretold(job, st, r) && OneOutputEach(st.tables)
    requires r.cid in st.tables.receipts ==> st.tables.receipts[r.cid] == r
    requires net(r.instruction).Some? ==> net(r.instruction).value.instruction == r.instruction
    ensures Both(job, st, net, task, at, r, evs) && Both(job, st, net, task, at, r, evs')
    ensures Run(job, st, evs) != Run(job, st, evs')
  {
    Unforetold(job, st, r);
    evs := GossipFirst(job, st, net, task, at, r);
    var front;
    if HasInstruction(st.tables, r.instruction) {
      var k :| IsRow(st.tables, k, r.instruction) && OutputAsArg(st.tables.receipts[k]) != OutputAsArg(r);
      front := RowRun(job, st, net, task, at, r, [], st, k);
    } else {
      front := NetRun(job, st, net, task, at, r);
    }
    evs' := GossipLast(job, st, net, task, at, r, front);
  }

  lemma Unforetold(job: Job, st: State, r: Receipt)
    requires !Foretold(job, st, r) && OneOutputEach(st.tables)
    requires r.cid in st.tables.receipts ==> st.tables.receipts[r.cid] == r
    ensures NestedLinks.Remote(job, st, r.instruction) && r.cid !in st.tables.receipts
  {
    assert r.cid in st.tables.receipts ==> IsRow(st.tables, r.cid, r.instruction);
  }

  /**
   While everything works, hearing a receipt and looking up its instruction end alike in every
   order if and only if the receipt was foretold: its instruction is linked or fetched,
   or has receipts already, with the same output.
   */
  lemma GossipExactly(job: Job, st: State, net: Net, task: nat, at: Path, r: Receipt)
    requires Occurs(st, task, at, r.instruction) && OneOutputEach(st.tables)
    requires r.cid in st.tables.receipts ==> st.tables.receipts[r.cid] == r
    requires net(r.instruction).Some? ==> net(r.instruction).value.instruction == r.instruction
    ensures (forall evs, evs' :: Both(job, st, net, task, at, r, evs) && Both(job, st, net, task, at, r, evs') ==>
               Run(job, st, evs) == Run(job, st, evs'))
            <==> Foretold(job, st, r)
  {
    if Foretold(job, st, r) {
      forall evs, evs' | Both(job, st, net, task, at, r, evs) && Both(job, st, net, task, at, r, evs')
        ensures Run(job, st, evs) == Run(job, st, evs')
      {
        ForetoldEnds(job, st, net, task, at, r, evs);
        ForetoldEnds(job, st, net, task, at, r, evs');
      }
    } else {
      var evs, evs' := GossipRaces(job, st, net, task, at, r);
    }
  }
}
