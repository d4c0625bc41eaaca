/**
 What every channel hears over whole sequences of events: exactly what the swarm and the
 providers said to it, with the outcome they said.
 */
module Outcomes {
  import opened Wrappers
  import opened PendingQueries
  import opened EventAccounts

  lemma {:induction false} RunOneMore(s: State, inputs: seq<Input>)
    requires CanRun(s, inputs) && inputs != []
    ensures var n := |inputs| - 1;
            && CanRun(s, inputs[..n]) && Enabled(Run(s, inputs[..n]), inputs[n])
            && Run(s, inputs) == Next(Run(s, inputs[..n]), inputs[n])
    decreases |inputs|
  {
    var n := |inputs| - 1;
    if n == 0 {
      assert inputs[..n] == [] && inputs[1..] == [];
    } else {
      RunOneMore(Next(s, inputs[0]), inputs[1..]);
      assert inputs[..n][0] == inputs[0] && inputs[..n][1..] == inputs[1..][..n - 1];
    }
  }

  /** The event at `k` makes the channel hear it. */
  ghost predicate Delivers(local: Peer, inputs: seq<Input>, k: int, c: Sender, h: Heard) {
    && 0 <= k < |inputs| && CanRun(Initial(local), inputs[..k])
    && h in Hears(Run(Initial(local), inputs[..k]), inputs[k], c)
  }

  lemma ByLast(local: Peer, front: seq<Input>, last: Input, c: Sender, h: Heard)
    requires CanRun(Initial(local), front)
    ensures (exists k :: Delivers(local, front + [last], k, c, h))
       <==> (exists k :: Delivers(local, front, k, c, h)) || h in Hears(Run(Initial(local), front), last, c)
  {
    var inputs := front + [last];
    forall k | 0 <= k < |front| ensures Delivers(local, inputs, k, c, h) <==> Delivers(local, front, k, c, h) {
      assert front[..k] == inputs[..k];
    }
    assert inputs[..|front|] == front;
    assert Delivers(local, inputs, |front|, c, h) <==> h in Hears(Run(Initial(local), front), last, c);
  }

  lemma Reached(local: Peer, inputs: seq<Input>)
    requires CanRun(Initial(local), inputs)
    ensures Inv(Run(Initial(local), inputs))
  {
    RunKeeps(Initial(local), inputs);
  }

  lemma HearsLast(local: Peer, front: seq<Input>, last: Input, c: Sender, h: Heard)
    requires CanRun(Initial(local), front) && Enabled(Run(Initial(local), front), last)
    ensures var s := Run(Initial(local), front);
            h in HeardBy(Next(s, last).sent, c) <==> h in HeardBy(s.sent, c) || h in Hears(s, last, c)
  {
    Reached(local, front);
    Responses(Run(Initial(local), front), last, c);
  }

  lemma SeeksLast(local: Peer, front: seq<Input>, last: Input, c: Sender, p: Peer)
    requires CanRun(Initial(local), front) && Enabled(Run(Initial(local), front), last)
    ensures var s := Run(Initial(local), front);
            p in Sought(Next(s, last).phase, c) <==> p in Sought(s.phase, c) || p in FindsFor(s, last, c)
  {
    Reached(local, front);
    StepSeeks(Run(Initial(local), front), last, c);
  }

  /** Over every sequence of events a channel heard exactly what an event said to it, with that outcome. */
  lemma {:induction false} HeardExactly(local: Peer, inputs: seq<Input>, c: Sender, h: Heard)
    requires CanRun(Initial(local), inputs)
    ensures h in HeardBy(Run(Initial(local), inputs).sent, c) <==> exists k :: Delivers(local, inputs, k, c, h)
    decreases |inputs|
  {
    if inputs != [] {
      var front, last := inputs[..|inputs| - 1], inputs[|inputs| - 1];
      assert inputs == front + [last];
      LastHeard(local, front, last, c, h);
      HeardExactly(local, front, c, h);
    }
  }

  lemma LastHeard(local: Peer, front: seq<Input>, last: Input, c: Sender, h: Heard)
    requires CanRun(Initial(local), front + [last])
    ensures CanRun(Initial(local), front)
    ensures h in HeardBy(Run(Initial(local), front + [last]).sent, c)
       <==> h in HeardBy(Run(Initial(local), front).sent, c) || h in Hears(Run(Initial(local), front), last, c)
    ensures (exists k :: Delivers(local, front + [last], k, c, h))
       <==> (exists k :: Delivers(local, front, k, c, h)) || h in Hears(Run(Initial(local), front), last, c)
  {
    RunOneMore(Initial(local), front + [last]);
    assert (front + [last])[..|front|] == front;
    HearsLast(local, front, last, c, h);
    ByLast(local, front, last, c, h);
  }

  /** A channel heard of a record exactly when the result that ended its query was a record that decodes. */
  lemma SucceedsExactly(local: Peer, inputs: seq<Input>, c: Sender)
    requires CanRun(Initial(local), inputs)
    ensures Heard(Direct, true) in HeardBy(Run(Initial(local), inputs).sent, c)
       <==> exists k, id :: Decodes(local, inputs, k, id, c)
  {
    HeardExactly(local, inputs, c, Heard(Direct, true));
    if k :| Delivers(local, inputs, k, c, Heard(Direct, true)) {
      assert Decodes(local, inputs, k, inputs[k].id, c);
    }
    if k, id :| Decodes(local, inputs, k, id, c) {
      assert Delivers(local, inputs, k, c, Heard(Direct, true));
    }
  }

  /** The event at `k` is a record that decodes, found by the query the channel waits for. */
  ghost predicate Decodes(local: Peer, inputs: seq<Input>, k: int, id: nat, c: Sender) {
    && 0 <= k < |inputs| && inputs[k] == Result(id, FoundRecord(true))
    && CanRun(Initial(local), inputs[..k]) && Pends(Run(Initial(local), inputs[..k]), id, c)
  }

  function PeersOf(x: Phase): set<Peer> {
    match x
    case Found(peers) => peers
    case Asking(asks) => asks.Keys
    case _ => {}
  }

  /** The providers found for a channel, asked or still to be asked. */
  ghost function Sought(phase: Phases, c: Sender): set<Peer> {
    if c in phase then PeersOf(phase[c]) else {}
  }

  function Others(peers: set<Peer>, local: Peer): set<Peer> {
    set p | p in peers && p != local
  }

  /** The providers an input finds for a channel: never the local peer. */
  ghost function FindsFor(s: State, i: Input, c: Sender): set<Peer> {
    match i
    case Result(id, FoundProviders(peers)) => if Pends(s, id, c) then Others(peers, s.local) else {}
    case _ => {}
  }

  lemma SetSeeks(phase: Phases, sender: Sender, peer: Peer, a: Asked, c: Sender)
    requires sender in phase && phase[sender].Asking? && peer in phase[sender].asks
    ensures Sought(SetAsked(phase, sender, peer, a), c) == Sought(phase, c)
  {
    assert phase[sender].asks[peer := a].Keys == phase[sender].asks.Keys;
  }

  /** A channel that takes a new phase. */
  lemma PutSeeks(phase: Phases, sender: Option<Sender>, x: Phase, c: Sender)
    ensures Sought(Put(phase, sender, x), c) == if sender == Some(c) then PeersOf(x) else Sought(phase, c)
  {
  }

  lemma HandleSeeks(s: State, id: nat, order: seq<Peer>, c: Sender)
    requires Enabled(s, Handle(id, order)) && MsgFits(s.phase, s.inbox[0])
    ensures Sought(Handled(s, id, order).phase, c) == Sought(s.phase, c)
  {
    match s.inbox[0]
    case Providers(peers, _, to) =>
      var asks := map p | p in peers :: ToAsk;
      assert asks.Keys == peers;
      PutSeeks(s.phase, Some(to), Asking(asks), c);
    case OutboundRequest(peer, _, to) => SetSeeks(s.phase, to, peer, Asked(id), c);
    case m => PutSeeks(s.phase, Waiting(m), Querying(KindOf(m).value, id), c);
  }

  lemma ResultSeeks(s: State, id: nat, r: QueryResult, c: Sender)
    requires QueriesOk(s.queries, s.kinds, s.phase)
    ensures Sought(Resulted(s, id, r).phase, c) == Sought(s.phase, c) + FindsFor(s, Result(id, r), c)
  {
    if r.FoundProviders? { assert r.peers - {s.local} == Others(r.peers, s.local); }
  }

  lemma StepSeeks(s: State, i: Input, c: Sender)
    requires Inv(s) && Enabled(s, i)
    ensures Sought(Next(s, i).phase, c) == Sought(s.phase, c) + FindsFor(s, i, c)
  {
    match i
    case Handle(id, order) =>
      assert MsgFits(s.phase, s.inbox[0]);
      HandleSeeks(s, id, order, c);
    case Result(id, r) => ResultSeeks(s, id, r, c);
    case Response(id, peer, parsed, _) =>
      if id in s.requests {
        assert Has(s.phase, s.requests[id].1, peer, Asked(id));
        SetSeeks(s.phase, s.requests[id].1, peer, Finished(parsed), c);
      }
    case Refuse => assert MsgFits(s.phase, s.inbox[0]);
    case Submit(_) =>
    case OutboundFailure(_) =>
  }

  /** The event at `k` finds the provider for the channel. */
  ghost predicate Finds(local: Peer, inputs: seq<Input>, k: int, c: Sender, p: Peer) {
    && 0 <= k < |inputs| && CanRun(Initial(local), inputs[..k])
    && p in FindsFor(Run(Initial(local), inputs[..k]), inputs[k], c)
  }

  lemma FoundLast(local: Peer, front: seq<Input>, last: Input, c: Sender, p: Peer)
    requires CanRun(Initial(local), front)
    ensures (exists k :: Finds(local, front + [last], k, c, p))
       <==> (exists k :: Finds(local, front, k, c, p)) || p in FindsFor(Run(Initial(local), front), last, c)
  {
    var inputs := front + [last];
    forall k | 0 <= k < |front| ensures Finds(local, inputs, k, c, p) <==> Finds(local, front, k, c, p) {
      assert front[..k] == inputs[..k];
    }
    assert inputs[..|front|] == front;
    assert Finds(local, inputs, |front|, c, p) <==> p in FindsFor(Run(Initial(local), front), last, c);
  }

  /** Over every sequence of events, the providers asked for a channel are exactly those found for it. */
  lemma {:induction false} SoughtExactly(local: Peer, inputs: seq<Input>, c: Sender, p: Peer)
    requires CanRun(Initial(local), inputs)
    ensures p in Sought(Run(Initial(local), inputs).phase, c) <==> exists k :: Finds(local, inputs, k, c, p)
    decreases |inputs|
  {
    if inputs != [] {
      var front, last := inputs[..|inputs| - 1], inputs[|inputs| - 1];
      assert inputs == front + [last];
      LastSought(local, front, last, c, p);
      SoughtExactly(local, front, c, p);
    }
  }

  lemma LastSought(local: Peer, front: seq<Input>, last: Input, c: Sender, p: Peer)
    requires CanRun(Initial(local), front + [last])
    ensures CanRun(Initial(local), front)
    ensures p in Sought(Run(Initial(local), front + [last]).phase, c)
       <==> p in Sought(Run(Initial(local), front).phase, c) || p in FindsFor(Run(Initial(local), front), last, c)
    ensures (exists k :: Finds(local, front + [last], k, c, p))
       <==> (exists k :: Finds(local, front, k, c, p)) || p in FindsFor(Run(Initial(local), front), last, c)
  {
    RunOneMore(Initial(local), front + [last]);
    assert (front + [last])[..|front|] == front;
    SeeksLast(local, front, last, c, p);
    FoundLast(local, front, last, c, p);
  }

  // ---------------------------------------------------------------------------
  // The order of the handler's channel
  // ---------------------------------------------------------------------------

  /** The message an input takes from the handler's channel. */
  ghost function Taken(s: State, i: Input): seq<Msg>
    requires Enabled(s, i)
  {
    if i.Handle? || i.Refuse? then [s.inbox[0]] else []
  }

  /** The messages an input leads to: what is submitted, the providers found, and a request to each of them. */
  ghost function Added(s: State, i: Input): seq<Msg>
    requires Enabled(s, i)
  {
    match i
    case Submit(m) => [m]
    case Handle(_, order) =>
      (match s.inbox[0]
       case Providers(_, key, to) => seq(|order|, k requires 0 <= k < |order| => OutboundRequest(order[k], key, to))
       case _ => [])
    case Result(id, FoundProviders(peers)) =>
      if id in s.queries && s.queries[id].1.Some? && Others(peers, s.local) != {}
      then [Providers(Others(peers, s.local), s.queries[id].0, s.queries[id].1.value)] else []
    case _ => []
  }

  lemma ResultInOrder(s: State, id: nat, r: QueryResult)
    requires Enabled(s, Result(id, r))
    ensures Resulted(s, id, r).inbox == s.inbox + Added(s, Result(id, r))
  {
    match r
    case FoundProviders(peers) => assert peers - {s.local} == Others(peers, s.local);
    case _ =>
  }

  lemma HandleInOrder(s: State, id: nat, order: seq<Peer>)
    requires Enabled(s, Handle(id, order))
    ensures [s.inbox[0]] + Handled(s, id, order).inbox == s.inbox + Added(s, Handle(id, order))
  {
    var rest, added := s.inbox[1..], Added(s, Handle(id, order));
    assert Handled(s, id, order).inbox == rest + added;
    assert [s.inbox[0]] + (rest + added) == ([s.inbox[0]] + rest) + added;
  }

  lemma StepInOrder(s: State, i: Input)
    requires Enabled(s, i)
    ensures Taken(s, i) + Next(s, i).inbox == s.inbox + Added(s, i)
  {
    match i
    case Handle(id, order) => HandleInOrder(s, id, order);
    case Result(id, r) => ResultInOrder(s, id, r);
    case Response(id, peer, parsed, ok) => assert Responded(s, id, peer, parsed, ok).inbox == s.inbox;
    case _ =>
  }

  ghost function AllTaken(s: State, inputs: seq<Input>): seq<Msg>
    requires CanRun(s, inputs)
    decreases |inputs|
  {
    if inputs == [] then [] else Taken(s, inputs[0]) + AllTaken(Next(s, inputs[0]), inputs[1..])
  }

  ghost function AllAdded(s: State, inputs: seq<Input>): seq<Msg>
    requires CanRun(s, inputs)
    decreases |inputs|
  {
    if inputs == [] then [] else Added(s, inputs[0]) + AllAdded(Next(s, inputs[0]), inputs[1..])
  }

  lemma Chained(t: seq<Msg>, mid: seq<Msg>, start: seq<Msg>, a: seq<Msg>, t': seq<Msg>, end: seq<Msg>, a': seq<Msg>)
    requires t + mid == start + a && t' + end == mid + a'
    ensures (t + t') + end == start + (a + a')
  {
    assert (t + t') + end == t + (t' + end);
    assert t + (mid + a') == (t + mid) + a';
    assert (start + a) + a' == start + (a + a');
  }

  /** Over every sequence of events messages are handled in the order they came, none lost and none made up. */
  lemma {:induction false} FirstInFirstOut(s: State, inputs: seq<Input>)
    requires CanRun(s, inputs)
    ensures AllTaken(s, inputs) + Run(s, inputs).inbox == s.inbox + AllAdded(s, inputs)
    decreases |inputs|
  {
    if inputs != [] {
      var s' := Next(s, inputs[0]);
      StepInOrder(s, inputs[0]);
      FirstInFirstOut(s', inputs[1..]);
      Chained(Taken(s, inputs[0]), s'.inbox, s.inbox, Added(s, inputs[0]), AllTaken(s', inputs[1..]),
              Run(s', inputs[1..]).inbox, AllAdded(s', inputs[1..]));
    }
  }

  /**
   Over every sequence of events, a channel made for a record gets at most one
   response, one made for providers gets at most one error or else at most one response
   from each provider found, and one made to provide a record gets none. Once nothing is
   pending, the channel of a record has exactly one, and that of a query for
   providers has its error or exactly one response from each provider found. Every
   response is about the key its channel was made for. A channel heard exactly what the events
   said to it, success or failure, and the providers asked are exactly those found.
   */
  lemma ResponseAccounting(local: Peer, inputs: seq<Input>, c: Sender)
    requires CanRun(Initial(local), inputs)
    ensures
      var s := Run(Initial(local), inputs);
      var got := OriginsTo(s.sent, c);
      && Due(s, c, got)
      && (forall k :: 0 <= k < |s.sent| ==> SentAbout(s.keys, s.submitted, s.sent[k]))
      && (Parses(inputs) && Quiet(s) && c in s.submitted ==> Settled(s, c, got))
      && (forall h :: h in HeardBy(s.sent, c) <==> exists k :: Delivers(local, inputs, k, c, h))
      && (forall p :: p in Sought(s.phase, c) <==> exists k :: Finds(local, inputs, k, c, p))
  {
    var s := Run(Initial(local), inputs);
    RunKeeps(Initial(local), inputs);
    DueIs(s, c);
    forall h ensures h in HeardBy(s.sent, c) <==> exists k :: Delivers(local, inputs, k, c, h) {
      HeardExactly(local, inputs, c, h);
    }
    forall p ensures p in Sought(s.phase, c) <==> exists k :: Finds(local, inputs, k, c, p) {
      SoughtExactly(local, inputs, c, p);
    }
    if Parses(inputs) && Quiet(s) && c in s.submitted {
      RunDropsNone(Initial(local), inputs);
      SettledIs(s, c);
    }
  }
}
