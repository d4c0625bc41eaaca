/**
 The event handler itself: its tables, and the loop that takes events from its channel and
 from the swarm.
 */
module EventLoop {
  import opened Wrappers
  import opened PendingQueries
  import opened EventAccounts
  import opened Outcomes

  class EventHandler {
    const local: Peer
    var querySenders: map<nat, (Key, Option<Sender>)>
    var requestSenders: map<nat, (Key, Sender)>
    var channel: seq<Msg>
    var sent: seq<Sent>
    ghost var kinds: map<nat, Kind>
    ghost var asked: map<nat, Peer>
    ghost var submitted: map<Sender, Kind>
    ghost var keys: map<Sender, Key>
    ghost var phase: Phases

    ghost function View(): State
      reads this
    {
      State(local, querySenders, requestSenders, channel, kinds, asked, sent, submitted, keys, phase)
    }

    /** What every channel is owed lies in exactly one place, and is about its key. */
    ghost predicate Valid()
      reads this
    {
      Inv(View()) && AllHeld(View()) && About(View())
    }

    /** What a channel heard so far. */
    ghost function Got(c: Sender): seq<Heard>
      reads this
    {
      HeardBy(sent, c)
    }

    constructor (local: Peer)
      ensures this.local == local && View() == Initial(local) && Valid()
    {
      this.local := local;
      querySenders, requestSenders, channel, sent := map[], map[], [], [];
      kinds, asked, submitted, keys, phase := map[], map[], map[], map[], map[];
    }

    method Submit(m: Msg)
      requires Enabled(View(), Input.Submit(m))
      modifies this
      ensures View() == Next(old(View()), Input.Submit(m))
    {
      channel := channel + [m];
      phase, submitted := Put(phase, Waiting(m), Queued(KindOf(m).value)), Put(submitted, Waiting(m), KindOf(m).value);
      keys := Put(keys, Waiting(m), m.key);
    }

    /** Take the next event; `id` is the number the swarm gives the query or the request. */
    method HandleEvent(id: nat, order: seq<Peer>)
      requires Enabled(View(), Handle(id, order))
      modifies this
      ensures View() == Next(old(View()), Handle(id, order))
    {
      var m := channel[0];
      channel := channel[1..];
      match m {
        case FindRecord(key, sender) => StartQuery(id, key, sender, RecordQuery);
        case GetProviders(key, sender) => StartQuery(id, key, sender, ProviderQuery);
        case ProvideRecord(key, sender) => StartQuery(id, key, sender, ProvideQuery);
        case Providers(peers, key, to) =>
          ghost var rest := channel;
          for i := 0 to |order|
            invariant channel == rest + Requests(order, key, to)[..i]
            invariant View() == old(View()).(inbox := channel)
          {
            channel := channel + [OutboundRequest(order[i], key, to)];
          }
          phase := phase[to := Asking(map p | p in peers :: ToAsk)];
        case OutboundRequest(peer, key, to) =>
          requestSenders := requestSenders[id := (key, to)];
          asked, phase := asked[id := peer], SetAsked(phase, to, peer, Asked(id));
      }
    }

    method StartQuery(id: nat, key: Key, sender: Option<Sender>, ghost kind: Kind)
      modifies this
      ensures View() == old(View()).(queries := old(querySenders)[id := (key, sender)], kinds := old(kinds)[id := kind],
                                     phase := Put(old(phase), sender, Querying(kind, id)))
    {
      querySenders := querySenders[id := (key, sender)];
      kinds, phase := kinds[id := kind], Put(phase, sender, Querying(kind, id));
    }

    /** The store refuses to provide the record the next event asks for. */
    method RefuseEvent()
      requires Enabled(View(), Refuse)
      modifies this
      ensures View() == Next(old(View()), Refuse)
    {
      phase := Put(phase, channel[0].sender, Unanswered);
      channel := channel[1..];
    }

    method HandleResult(id: nat, r: QueryResult)
      requires Enabled(View(), Result(id, r))
      modifies this
      ensures View() == Next(old(View()), Result(id, r))
    {
      match r {
        case FoundProviders(found) =>
          var peers := found - {local};
          if peers == {} || id !in querySenders { return; }
          var (key, sender) := querySenders[id];
          querySenders := querySenders - {id};
          if sender.Some? { channel := channel + [Providers(peers, key, sender.value)]; }
          phase := Put(phase, sender, Found(peers));
        case ProvidersFinished =>
        case ProvidersFailed => AnswerQuery(id, false);
        case FoundRecord(ok) => AnswerQuery(id, ok);
        case RecordFinished =>
        case RecordFailed => AnswerQuery(id, false);
        case ProvideDone =>
          if id in querySenders { phase := Put(phase, querySenders[id].1, Unanswered); }
          querySenders := querySenders - {id};
      }
    }

    method AnswerQuery(id: nat, ok: bool)
      modifies this
      ensures View() == Answer(old(View()), id, ok)
    {
      if id !in querySenders { return; }
      var (key, sender) := querySenders[id];
      querySenders := querySenders - {id};
      if sender.Some? { sent := sent + [Sent.Sent(sender.value, key, Direct, ok)]; }
      phase := Put(phase, sender, Closed);
    }

    method HandleResponse(id: nat, peer: Peer, parsed: bool, ok: bool)
      requires Enabled(View(), Response(id, peer, parsed, ok))
      modifies this
      ensures View() == Next(old(View()), Response(id, peer, parsed, ok))
    {
      if id !in requestSenders { return; }
      var (key, sender) := requestSenders[id];
      requestSenders := requestSenders - {id};
      if parsed { sent := sent + [Sent.Sent(sender, key, FromPeer(peer), ok)]; }
      phase := SetAsked(phase, sender, peer, Finished(parsed));
    }

    /**
     One turn of the loop. The account of every channel is kept; each channel hears what the
     input has for it, and never what it heard before: a response straight from its query is
     its first, and no provider answers it twice.
     */
    method Turn(i: Input)
      requires Valid() && Enabled(View(), i)
      modifies this
      ensures Valid() && View() == Next(old(View()), i)
      ensures forall c: Sender :: Got(c) == old(Got(c)) + Hears(old(View()), i, c)
      ensures forall c: Sender :: New(Origins(old(Got(c))), Origins(Hears(old(View()), i, c)))
    {
      ghost var s := View();
      match i {
        case Submit(m) => Submit(m);
        case Handle(id, order) => HandleEvent(id, order);
        case Refuse => RefuseEvent();
        case Result(id, r) => HandleResult(id, r);
        case Response(id, peer, parsed, ok) => HandleResponse(id, peer, parsed, ok);
        case OutboundFailure(_) =>
      }
      Progresses(s, i);
    }
  }

  /** What one input does to the account and to what the channels heard. */
  lemma Progresses(s: State, i: Input)
    requires Inv(s) && AllHeld(s) && About(s) && Enabled(s, i)
    ensures Inv(Next(s, i)) && AllHeld(Next(s, i)) && About(Next(s, i))
    ensures forall c: Sender :: HeardBy(Next(s, i).sent, c) == HeardBy(s.sent, c) + Hears(s, i, c)
    ensures forall c: Sender :: New(Origins(HeardBy(s.sent, c)), Origins(Hears(s, i, c)))
  {
    StepKeeps(s, i);
    StepHolds(s, i);
    StepAbout(s, i);
    forall c: Sender
      ensures HeardBy(Next(s, i).sent, c) == HeardBy(s.sent, c) + Hears(s, i, c)
      ensures New(Origins(HeardBy(s.sent, c)), Origins(Hears(s, i, c)))
    {
      Responses(s, i, c);
    }
  }

  /**
   The handler's loop, for any script of events: every channel has heard what it is due and
   no more, each response is about the key of its channel, and once nothing is pending every
   channel has heard all of it.
   */
  method Serve(local: Peer, script: seq<Input>) returns (sent: seq<Sent>)
    requires CanRun(Initial(local), script)
    ensures var end := Run(Initial(local), script);
            && sent == end.sent
            && (forall c: Sender :: Due(end, c, OriginsTo(sent, c)))
            && (forall k :: 0 <= k < |sent| ==> SentAbout(end.keys, end.submitted, sent[k]))
            && (forall c: Sender, h :: h in HeardBy(sent, c) <==> exists k :: Delivers(local, script, k, c, h))
            && (Parses(script) && Quiet(end) ==> forall c :: c in end.submitted ==> Settled(end, c, OriginsTo(sent, c)))
  {
    var h := new EventHandler(local);
    for k := 0 to |script|
      invariant fresh(h) && h.Valid() && CanRun(h.View(), script[k..])
      invariant Run(h.View(), script[k..]) == Run(Initial(local), script)
    {
      assert script[k..][0] == script[k] && script[k..][1..] == script[k + 1..];
      h.Turn(script[k]);
    }
    sent := h.sent;
    ghost var end := h.View();
    forall c: Sender
      ensures Due(end, c, OriginsTo(sent, c))
    {
      DueIs(end, c);
    }
    forall c: Sender, h
      ensures h in HeardBy(sent, c) <==> exists k :: Delivers(local, script, k, c, h)
    {
      HeardExactly(local, script, c, h);
    }
    if Parses(script) && Quiet(end) {
      RunDropsNone(Initial(local), script);
      forall c | c in end.submitted ensures Settled(end, c, OriginsTo(sent, c)) { SettledIs(end, c); }
    }
  }
}
