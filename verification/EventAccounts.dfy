/**
 The account of every channel: what it is owed lies in exactly one place, over every
 sequence of events, so each query is answered as often as it should be.
 */
module EventAccounts {
  import opened Wrappers
  import opened PendingQueries

  /** The obligation a message, a request or a response carries. */
  datatype Token = Chan(sender: Sender) | Ask(sender: Sender, peer: Peer)

  function TokenOf(m: Msg): Option<Token> {
    match m
    case Providers(_, _, to) => Some(Chan(to))
    case OutboundRequest(peer, _, to) => Some(Ask(to, peer))
    case _ => (match Waiting(m) case Some(c) => Some(Chan(c)) case None => None)
  }

  function TokenOfSent(r: Sent): Token {
    match r.origin
    case Direct => Chan(r.to)
    case FromPeer(p) => Ask(r.to, p)
  }

  /** How far a provider of the channel has come. */
  ghost predicate Has(phase: Phases, sender: Sender, peer: Peer, a: Asked) {
    sender in phase && phase[sender].Asking? && peer in phase[sender].asks && phase[sender].asks[peer] == a
  }

  ghost predicate MsgFits(phase: Phases, m: Msg) {
    match m
    case Providers(peers, _, to) => to in phase && phase[to] == Found(peers)
    case OutboundRequest(peer, _, to) => Has(phase, to, peer, ToAsk)
    case _ => Waiting(m).Some? ==> Waiting(m).value in phase && phase[Waiting(m).value] == Queued(KindOf(m).value)
  }

  ghost predicate InboxOk(inbox: seq<Msg>, phase: Phases) {
    && (forall i :: 0 <= i < |inbox| ==> MsgFits(phase, inbox[i]))
    && (forall i, j :: 0 <= i < j < |inbox| && TokenOf(inbox[i]).Some? ==> TokenOf(inbox[i]) != TokenOf(inbox[j]))
  }

  ghost predicate QueriesOk(queries: map<nat, (Key, Option<Sender>)>, kinds: map<nat, Kind>, phase: Phases) {
    forall id :: id in queries ==>
      && id in kinds
      && (queries[id].1.Some? ==> queries[id].1.value in phase && phase[queries[id].1.value] == Querying(kinds[id], id))
  }

  ghost predicate RequestsOk(requests: map<nat, (Key, Sender)>, asked: map<nat, Peer>, phase: Phases) {
    forall id :: id in requests ==> id in asked && Has(phase, requests[id].1, asked[id], Asked(id))
  }

  ghost predicate SentFits(phase: Phases, r: Sent) {
    match r.origin
    case Direct => r.to in phase && phase[r.to] == Closed
    case FromPeer(p) => Has(phase, r.to, p, Finished(true))
  }

  ghost predicate SentOk(sent: seq<Sent>, phase: Phases) {
    && (forall k :: 0 <= k < |sent| ==> SentFits(phase, sent[k]))
    && (forall j, k :: 0 <= j < k < |sent| ==> TokenOfSent(sent[j]) != TokenOfSent(sent[k]))
  }

  /** Only a query for providers ever asks providers, and never the local peer. */
  ghost predicate KindsOk(local: Peer, submitted: map<Sender, Kind>, phase: Phases) {
    && phase.Keys == submitted.Keys
    && (forall c :: c in phase ==>
          match phase[c]
          case Queued(k) => submitted[c] == k
          case Querying(k, _) => submitted[c] == k
          case Found(peers) => submitted[c] == ProviderQuery && local !in peers
          case Asking(asks) => submitted[c] == ProviderQuery && local !in asks
          case Closed => submitted[c] != ProvideQuery
          case Unanswered => submitted[c] == ProvideQuery)
  }

  ghost predicate Inv(s: State) {
    && InboxOk(s.inbox, s.phase) && QueriesOk(s.queries, s.kinds, s.phase) && RequestsOk(s.requests, s.asked, s.phase)
    && SentOk(s.sent, s.phase) && KindsOk(s.local, s.submitted, s.phase)
  }

  // ---------------------------------------------------------------------------
  // Every step keeps the account
  // ---------------------------------------------------------------------------

  lemma InboxTail(inbox: seq<Msg>, phase: Phases)
    requires inbox != [] && InboxOk(inbox, phase)
    ensures InboxOk(inbox[1..], phase)
    ensures forall i :: 0 <= i < |inbox| - 1 && TokenOf(inbox[0]).Some? ==> TokenOf(inbox[1..][i]) != TokenOf(inbox[0])
  {
  }

  lemma InboxAppend(inbox: seq<Msg>, m: Msg, phase: Phases)
    requires InboxOk(inbox, phase) && MsgFits(phase, m)
    requires forall i :: 0 <= i < |inbox| && TokenOf(m).Some? ==> TokenOf(inbox[i]) != TokenOf(m)
    ensures InboxOk(inbox + [m], phase)
  {
  }

  /** Only the channel `c` changes its phase. */
  ghost predicate Only(phase: Phases, phase': Phases, c: Sender) {
    forall d :: d in phase && d != c ==> d in phase' && phase'[d] == phase[d]
  }

  /** Only the provider `p` of the channel `c` changes. */
  ghost predicate OnlyAsk(phase: Phases, phase': Phases, c: Sender, p: Peer) {
    && Only(phase, phase', c)
    && c in phase && phase[c].Asking? && c in phase' && phase'[c].Asking?
    && (forall q :: q in phase[c].asks && q != p ==> q in phase'[c].asks && phase'[c].asks[q] == phase[c].asks[q])
  }

  ghost predicate Silent(inbox: seq<Msg>, c: Sender) {
    forall i :: 0 <= i < |inbox| && TokenOf(inbox[i]).Some? ==> TokenOf(inbox[i]).value.sender != c
  }

  /** The rest of the channel says nothing about a sender whose one message comes first. */
  lemma RestSilent(inbox: seq<Msg>, phase: Phases, c: Sender)
    requires inbox != [] && InboxOk(inbox, phase) && TokenOf(inbox[0]) == Some(Chan(c))
    ensures Silent(inbox[1..], c)
  {
    var rest := inbox[1..];
    assert MsgFits(phase, inbox[0]);
    forall i | 0 <= i < |rest| && TokenOf(rest[i]).Some?
      ensures TokenOf(rest[i]).value.sender != c
    {
      assert MsgFits(phase, inbox[i + 1]) && TokenOf(inbox[i + 1]) != TokenOf(inbox[0]);
    }
  }

  lemma AllSilent(inbox: seq<Msg>, phase: Phases, c: Sender)
    requires InboxOk(inbox, phase)
    requires c in phase ==> !phase[c].Queued? && !phase[c].Found? && !phase[c].Asking?
    ensures Silent(inbox, c)
  {
    forall i | 0 <= i < |inbox| && TokenOf(inbox[i]).Some?
      ensures TokenOf(inbox[i]).value.sender != c
    {
      assert MsgFits(phase, inbox[i]);
    }
  }

  lemma SilentKeeps(inbox: seq<Msg>, phase: Phases, phase': Phases, c: Sender)
    requires InboxOk(inbox, phase) && Silent(inbox, c) && Only(phase, phase', c)
    ensures InboxOk(inbox, phase')
  {
    forall i | 0 <= i < |inbox|
      ensures MsgFits(phase', inbox[i])
    {
      assert MsgFits(phase, inbox[i]);
      assert TokenOf(inbox[i]).Some? ==> TokenOf(inbox[i]).value.sender != c;
    }
  }

  lemma SentKeeps(sent: seq<Sent>, phase: Phases, phase': Phases, c: Sender)
    requires SentOk(sent, phase) && Only(phase, phase', c)
    requires c in phase ==> !phase[c].Asking? && !phase[c].Closed?
    ensures SentOk(sent, phase')
    ensures forall k :: 0 <= k < |sent| ==> sent[k].to != c
  {
    forall k | 0 <= k < |sent|
      ensures SentFits(phase', sent[k]) && sent[k].to != c
    {
      assert SentFits(phase, sent[k]);
    }
  }

  lemma QueriesKeep(
    queries: map<nat, (Key, Option<Sender>)>, kinds: map<nat, Kind>, phase: Phases, phase': Phases, c: Sender)
    requires QueriesOk(queries, kinds, phase) && Only(phase, phase', c)
    requires c in phase ==> !phase[c].Querying?
    ensures QueriesOk(queries, kinds, phase')
  {
  }

  lemma RequestsKeep(requests: map<nat, (Key, Sender)>, asked: map<nat, Peer>, phase: Phases, phase': Phases, c: Sender)
    requires RequestsOk(requests, asked, phase) && Only(phase, phase', c)
    requires c in phase ==> !phase[c].Asking?
    ensures RequestsOk(requests, asked, phase')
  {
  }

  lemma SubmitKeeps(s: State, m: Msg)
    requires Inv(s) && Enabled(s, Submit(m))
    ensures Inv(Next(s, Submit(m)))
  {
    var s' := Next(s, Submit(m));
    if Waiting(m).Some? {
      var c := Waiting(m).value;
      assert c !in s.phase && Only(s.phase, s'.phase, c);
      AllSilent(s.inbox, s.phase, c);
      SilentKeeps(s.inbox, s.phase, s'.phase, c);
      SentKeeps(s.sent, s.phase, s'.phase, c);
      QueriesKeep(s.queries, s.kinds, s.phase, s'.phase, c);
      RequestsKeep(s.requests, s.asked, s.phase, s'.phase, c);
    }
    InboxAppend(s.inbox, m, s'.phase);
  }

  lemma StartKeeps(s: State, id: nat, order: seq<Peer>)
    requires Inv(s) && Enabled(s, Handle(id, order)) && KindOf(s.inbox[0]).Some?
    ensures Inv(Handled(s, id, order))
  {
    var m := s.inbox[0];
    var kind, phase' := KindOf(m).value, Put(s.phase, Waiting(m), Querying(KindOf(m).value, id));
    StartTables(s, phase');
    StartKinds(s, id);
    QueryAdded(s.queries, s.kinds, phase', id, (m.key, Waiting(m)), kind);
  }

  /** The tables still fit once the first message's channel has left the queue. */
  lemma StartTables(s: State, phase': Phases)
    requires Inv(s) && s.inbox != [] && KindOf(s.inbox[0]).Some?
    requires Waiting(s.inbox[0]).Some? ==> Only(s.phase, phase', Waiting(s.inbox[0]).value)
    requires Waiting(s.inbox[0]).None? ==> phase' == s.phase
    ensures InboxOk(s.inbox[1..], phase') && SentOk(s.sent, phase')
    ensures QueriesOk(s.queries, s.kinds, phase') && RequestsOk(s.requests, s.asked, phase')
  {
    var m := s.inbox[0];
    InboxTail(s.inbox, s.phase);
    if Waiting(m).Some? {
      var c := Waiting(m).value;
      assert MsgFits(s.phase, m);
      RestSilent(s.inbox, s.phase, c);
      SilentKeeps(s.inbox[1..], s.phase, phase', c);
      SentKeeps(s.sent, s.phase, phase', c);
      QueriesKeep(s.queries, s.kinds, s.phase, phase', c);
      RequestsKeep(s.requests, s.asked, s.phase, phase', c);
    }
  }

  lemma StartKinds(s: State, id: nat)
    requires Inv(s) && s.inbox != [] && KindOf(s.inbox[0]).Some?
    ensures KindsOk(s.local, s.submitted, Put(s.phase, Waiting(s.inbox[0]), Querying(KindOf(s.inbox[0]).value, id)))
  {
    assert MsgFits(s.phase, s.inbox[0]);
  }

  lemma QueryAdded(
    queries: map<nat, (Key, Option<Sender>)>, kinds: map<nat, Kind>, phase: Phases,
    id: nat, entry: (Key, Option<Sender>), kind: Kind)
    requires QueriesOk(queries, kinds, phase) && id !in kinds
    requires entry.1.Some? ==> entry.1.value in phase && phase[entry.1.value] == Querying(kind, id)
    ensures QueriesOk(queries[id := entry], kinds[id := kind], phase)
  {
  }

  lemma RefuseKeeps(s: State)
    requires Inv(s) && Enabled(s, Refuse)
    ensures Inv(Refused(s))
  {
    assert MsgFits(s.phase, s.inbox[0]);
    StartTables(s, Refused(s).phase);
  }

  lemma {:induction false} InboxRequests(inbox: seq<Msg>, order: seq<Peer>, key: Key, to: Sender, phase: Phases)
    requires InboxOk(inbox, phase) && Silent(inbox, to) && forall p :: p in order ==> Has(phase, to, p, ToAsk)
    requires forall i, j :: 0 <= i < j < |order| ==> order[i] != order[j]
    ensures InboxOk(inbox + Requests(order, key, to), phase)
  {
    var more := Requests(order, key, to);
    var all := inbox + more;
    forall k | 0 <= k < |more| ensures MsgFits(phase, more[k]) { assert order[k] in order; }
    forall i, j | 0 <= i < j < |all| && TokenOf(all[i]).Some? ensures TokenOf(all[i]) != TokenOf(all[j]) {
      if j >= |inbox| { assert order[j - |inbox|] in order; }
    }
  }

  lemma ProvidersKeep(s: State, id: nat, order: seq<Peer>)
    requires Inv(s) && Enabled(s, Handle(id, order)) && s.inbox[0].Providers?
    ensures Inv(Handled(s, id, order))
  {
    var s' := Handled(s, id, order);
    var m, rest := s.inbox[0], s.inbox[1..];
    InboxTail(s.inbox, s.phase);
    assert MsgFits(s.phase, m);
    RestSilent(s.inbox, s.phase, m.to);
    SilentKeeps(rest, s.phase, s'.phase, m.to);
    InboxRequests(rest, order, m.key, m.to, s'.phase);
    SentKeeps(s.sent, s.phase, s'.phase, m.to);
    QueriesKeep(s.queries, s.kinds, s.phase, s'.phase, m.to);
    RequestsKeep(s.requests, s.asked, s.phase, s'.phase, m.to);
  }

  /** What a change of one provider leaves of the messages about the others. */
  lemma AskKeepsInbox(inbox: seq<Msg>, phase: Phases, phase': Phases, c: Sender, p: Peer)
    requires InboxOk(inbox, phase) && OnlyAsk(phase, phase', c, p)
    requires forall i :: 0 <= i < |inbox| ==> TokenOf(inbox[i]) != Some(Ask(c, p))
    ensures InboxOk(inbox, phase')
  {
    forall i | 0 <= i < |inbox|
      ensures MsgFits(phase', inbox[i])
    {
      assert MsgFits(phase, inbox[i]);
    }
  }

  lemma AskKeepsTables(s: State, phase': Phases, c: Sender, p: Peer)
    requires Inv(s) && OnlyAsk(s.phase, phase', c, p)
    requires Has(s.phase, c, p, ToAsk) || exists id :: Has(s.phase, c, p, Asked(id))
    ensures QueriesOk(s.queries, s.kinds, phase') && SentOk(s.sent, phase')
    ensures forall k :: 0 <= k < |s.sent| ==> TokenOfSent(s.sent[k]) != Ask(c, p) && TokenOfSent(s.sent[k]) != Chan(c)
  {
    QueriesKeep(s.queries, s.kinds, s.phase, phase', c);
    forall k | 0 <= k < |s.sent|
      ensures SentFits(phase', s.sent[k])
      ensures TokenOfSent(s.sent[k]) != Ask(c, p) && TokenOfSent(s.sent[k]) != Chan(c)
    {
      assert SentFits(s.phase, s.sent[k]);
    }
  }

  lemma RequestKeeps(s: State, id: nat, order: seq<Peer>)
    requires Inv(s) && Enabled(s, Handle(id, order)) && s.inbox[0].OutboundRequest?
    ensures Inv(Handled(s, id, order))
  {
    var s' := Handled(s, id, order);
    var m := s.inbox[0];
    InboxTail(s.inbox, s.phase);
    assert MsgFits(s.phase, m);
    assert OnlyAsk(s.phase, s'.phase, m.to, m.peer);
    AskKeepsInbox(s'.inbox, s.phase, s'.phase, m.to, m.peer);
    AskKeepsTables(s, s'.phase, m.to, m.peer);
    RequestAdded(s.requests, s.asked, s.phase, s'.phase, id, m.key, m.to, m.peer);
  }

  lemma RequestAdded(
    requests: map<nat, (Key, Sender)>, asked: map<nat, Peer>, phase: Phases, phase': Phases, id: nat,
    key: Key, to: Sender, peer: Peer)
    requires RequestsOk(requests, asked, phase) && OnlyAsk(phase, phase', to, peer) && id !in asked
    requires Has(phase, to, peer, ToAsk) && Has(phase', to, peer, Asked(id))
    ensures RequestsOk(requests[id := (key, to)], asked[id := peer], phase')
  {
  }

  lemma ResponseKeeps(s: State, id: nat, peer: Peer, parsed: bool, ok: bool)
    requires Inv(s) && Enabled(s, Response(id, peer, parsed, ok))
    ensures Inv(Responded(s, id, peer, parsed, ok))
  {
    var s' := Responded(s, id, peer, parsed, ok);
    if id in s.requests {
      var c := s.requests[id].1;
      assert Has(s.phase, c, peer, Asked(id)) && OnlyAsk(s.phase, s'.phase, c, peer);
      assert forall i :: 0 <= i < |s.inbox| ==> MsgFits(s.phase, s.inbox[i]);
      AskKeepsInbox(s.inbox, s.phase, s'.phase, c, peer);
      AskKeepsTables(s, s'.phase, c, peer);
      RequestGone(s.requests, s.asked, s.phase, s'.phase, id);
    }
  }

  /** A request that goes is the only one for its provider. */
  lemma RequestGone(requests: map<nat, (Key, Sender)>, asked: map<nat, Peer>, phase: Phases, phase': Phases, id: nat)
    requires RequestsOk(requests, asked, phase) && id in requests && id in asked
    requires OnlyAsk(phase, phase', requests[id].1, asked[id])
    ensures RequestsOk(requests - {id}, asked, phase')
  {
    forall k | k in requests - {id}
      ensures Has(phase', requests[k].1, asked[k], Asked(k))
    {
      assert Has(phase, requests[k].1, asked[k], Asked(k)) && Has(phase, requests[id].1, asked[id], Asked(id));
    }
  }

  /** A query leaves the table and its channel takes its next phase. */
  lemma LeaveKeeps(s: State, id: nat, phase': Phases, c: Sender)
    requires Inv(s) && id in s.queries && s.queries[id].1 == Some(c) && Only(s.phase, phase', c)
    ensures c in s.phase && s.phase[c] == Querying(s.kinds[id], id)
    ensures InboxOk(s.inbox, phase') && Silent(s.inbox, c)
    ensures QueriesOk(s.queries - {id}, s.kinds, phase') && RequestsOk(s.requests, s.asked, phase')
    ensures SentOk(s.sent, phase') && forall k :: 0 <= k < |s.sent| ==> s.sent[k].to != c
  {
    AllSilent(s.inbox, s.phase, c);
    SilentKeeps(s.inbox, s.phase, phase', c);
    SentKeeps(s.sent, s.phase, phase', c);
    RequestsKeep(s.requests, s.asked, s.phase, phase', c);
  }

  lemma AnswerKeeps(s: State, id: nat, ok: bool)
    requires Inv(s) && id in s.kinds && s.kinds[id] != ProvideQuery
    ensures Inv(Answer(s, id, ok))
  {
    var s' := Answer(s, id, ok);
    if id in s.queries && s.queries[id].1.Some? {
      LeaveKeeps(s, id, s'.phase, s.queries[id].1.value);
      assert SentOk(s'.sent, s'.phase);
    }
  }

  lemma FoundKeeps(s: State, id: nat, peers: set<Peer>)
    requires Inv(s) && Enabled(s, Result(id, FoundProviders(peers)))
    ensures Inv(Resulted(s, id, FoundProviders(peers)))
  {
    var s' := Resulted(s, id, FoundProviders(peers));
    if s' != s && s.queries[id].1.Some? {
      LeaveKeeps(s, id, s'.phase, s.queries[id].1.value);
      InboxAppend(s.inbox, s'.inbox[|s.inbox|], s'.phase);
    }
  }

  lemma ProvideKeeps(s: State, id: nat)
    requires Inv(s) && Enabled(s, Result(id, ProvideDone))
    ensures Inv(Resulted(s, id, ProvideDone))
  {
    var s' := Resulted(s, id, ProvideDone);
    if id in s.queries && s.queries[id].1.Some? {
      LeaveKeeps(s, id, s'.phase, s.queries[id].1.value);
    }
  }

  lemma StepKeeps(s: State, i: Input)
    requires Inv(s) && Enabled(s, i)
    ensures Inv(Next(s, i))
  {
    match i
    case Submit(m) => SubmitKeeps(s, m);
    case Handle(id, order) =>
      match s.inbox[0] {
        case Providers(_, _, _) => ProvidersKeep(s, id, order);
        case OutboundRequest(_, _, _) => RequestKeeps(s, id, order);
        case _ => StartKeeps(s, id, order);
      }
    case Result(id, r) =>
      match r {
        case FoundProviders(peers) => FoundKeeps(s, id, peers);
        case ProvidersFailed => AnswerKeeps(s, id, false);
        case FoundRecord(ok) => AnswerKeeps(s, id, ok);
        case RecordFailed => AnswerKeeps(s, id, false);
        case RecordFinished =>
        case ProvidersFinished =>
        case ProvideDone => ProvideKeeps(s, id);
      }
    case Refuse => RefuseKeeps(s);
    case Response(id, peer, parsed, ok) => ResponseKeeps(s, id, peer, parsed, ok);
    case OutboundFailure(_) =>
  }

  // ---------------------------------------------------------------------------
  // No obligation is lost
  // ---------------------------------------------------------------------------

  ghost predicate InInbox(inbox: seq<Msg>, t: Token) {
    exists i :: 0 <= i < |inbox| && TokenOf(inbox[i]) == Some(t)
  }

  ghost predicate InSent(sent: seq<Sent>, t: Token) {
    exists k :: 0 <= k < |sent| && TokenOfSent(sent[k]) == t
  }

  ghost predicate HeldAsk(s: State, c: Sender, p: Peer, a: Asked) {
    match a
    case ToAsk => InInbox(s.inbox, Ask(c, p))
    case Asked(id) => id in s.requests && s.requests[id].1 == c && id in s.asked && s.asked[id] == p
    case Finished(answered) => answered ==> InSent(s.sent, Ask(c, p))
  }

  /** What a channel is owed lies in the handler's channel or one of its tables, or was sent. */
  ghost predicate Held(s: State, c: Sender) {
    c in s.phase ==>
      match s.phase[c]
      case Queued(_) => InInbox(s.inbox, Chan(c))
      case Querying(_, id) => id in s.queries && s.queries[id].1 == Some(c)
      case Found(_) => InInbox(s.inbox, Chan(c))
      case Asking(asks) => forall p :: p in asks ==> HeldAsk(s, c, p, asks[p])
      case Closed => InSent(s.sent, Chan(c))
      case Unanswered => true
  }

  ghost predicate AllHeld(s: State) {
    forall c :: c in s.phase ==> Held(s, c)
  }

  /** Nothing of what is owed to `c` is lost from one state to the next. */
  ghost predicate Carries(s: State, s': State, c: Sender) {
    && (forall t :: t == Chan(c) && InInbox(s.inbox, t) ==> InInbox(s'.inbox, t))
    && (forall p :: InInbox(s.inbox, Ask(c, p)) ==> InInbox(s'.inbox, Ask(c, p)))
    && (forall t :: InSent(s.sent, t) ==> InSent(s'.sent, t))
    && (forall id :: id in s.queries && s.queries[id].1 == Some(c) ==> id in s'.queries && s'.queries[id] == s.queries[id])
    && (forall id :: id in s.requests && s.requests[id].1 == c && id in s.asked ==>
          id in s'.requests && s'.requests[id] == s.requests[id] && id in s'.asked && s'.asked[id] == s.asked[id])
  }

  lemma CarriesHeld(s: State, s': State, c: Sender)
    requires Held(s, c) && Carries(s, s', c) && c in s.phase && c in s'.phase && s'.phase[c] == s.phase[c]
    ensures Held(s', c)
  {
  }

  lemma TailTokens(inbox: seq<Msg>, t: Token)
    requires inbox != [] && InInbox(inbox, t) && TokenOf(inbox[0]) != Some(t)
    ensures InInbox(inbox[1..], t)
  {
    var i :| 0 <= i < |inbox| && TokenOf(inbox[i]) == Some(t);
    assert inbox[1..][i - 1] == inbox[i];
  }

  lemma MoreTokens(inbox: seq<Msg>, more: seq<Msg>, t: Token)
    requires InInbox(inbox, t)
    ensures InInbox(inbox + more, t)
  {
    var i :| 0 <= i < |inbox| && TokenOf(inbox[i]) == Some(t);
    assert (inbox + more)[i] == inbox[i];
  }

  lemma NewToken(inbox: seq<Msg>, m: Msg)
    requires TokenOf(m).Some?
    ensures InInbox(inbox + [m], TokenOf(m).value)
  {
    assert (inbox + [m])[|inbox|] == m;
  }

  lemma MoreSent(sent: seq<Sent>, more: seq<Sent>)
    ensures forall t :: InSent(sent, t) ==> InSent(sent + more, t)
  {
    forall t | InSent(sent, t)
      ensures InSent(sent + more, t)
    {
      var k :| 0 <= k < |sent| && TokenOfSent(sent[k]) == t;
      assert (sent + more)[k] == sent[k];
    }
  }

  lemma SubmitHolds(s: State, m: Msg)
    requires Inv(s) && AllHeld(s) && Enabled(s, Submit(m))
    ensures AllHeld(Next(s, Submit(m)))
  {
    var s' := Next(s, Submit(m));
    forall c | c in s'.phase
      ensures Held(s', c)
    {
      if Waiting(m) == Some(c) {
        NewToken(s.inbox, m);
      } else {
        forall t | InInbox(s.inbox, t) ensures InInbox(s'.inbox, t) { MoreTokens(s.inbox, [m], t); }
        CarriesHeld(s, s', c);
      }
    }
  }

  /** What the channels other than `c` are owed, when a message to `c` is taken out. */
  lemma TakeCarries(s: State, more: seq<Msg>, c: Sender)
    requires s.inbox != [] && TokenOf(s.inbox[0]) != Some(Chan(c)) && forall p :: TokenOf(s.inbox[0]) != Some(Ask(c, p))
    ensures forall t :: t == Chan(c) && InInbox(s.inbox, t) ==> InInbox(s.inbox[1..] + more, t)
    ensures forall p :: InInbox(s.inbox, Ask(c, p)) ==> InInbox(s.inbox[1..] + more, Ask(c, p))
  {
    forall t: Token | t.sender == c && InInbox(s.inbox, t)
      ensures InInbox(s.inbox[1..] + more, t)
    {
      assert t == Chan(c) || t == Ask(c, t.peer);
      TailTokens(s.inbox, t);
      MoreTokens(s.inbox[1..], more, t);
    }
  }

  lemma StartHolds(s: State, id: nat, order: seq<Peer>)
    requires Inv(s) && AllHeld(s) && Enabled(s, Handle(id, order)) && KindOf(s.inbox[0]).Some?
    ensures AllHeld(Handled(s, id, order))
  {
    var s' := Handled(s, id, order);
    forall c | c in s'.phase
      ensures Held(s', c)
    {
      assert MsgFits(s.phase, s.inbox[0]);
      if Waiting(s.inbox[0]) != Some(c) {
        TakeCarries(s, [], c);
        assert s.inbox[1..] + [] == s'.inbox;
        CarriesHeld(s, s', c);
      }
    }
  }

  lemma RefuseHolds(s: State)
    requires Inv(s) && AllHeld(s) && Enabled(s, Refuse)
    ensures AllHeld(Refused(s))
  {
    var s' := Refused(s);
    forall c | c in s'.phase
      ensures Held(s', c)
    {
      assert MsgFits(s.phase, s.inbox[0]);
      if Waiting(s.inbox[0]) != Some(c) {
        TakeCarries(s, [], c);
        assert s.inbox[1..] + [] == s'.inbox;
        CarriesHeld(s, s', c);
      }
    }
  }

  lemma ProvidersHold(s: State, id: nat, order: seq<Peer>)
    requires Inv(s) && AllHeld(s) && Enabled(s, Handle(id, order)) && s.inbox[0].Providers?
    ensures AllHeld(Handled(s, id, order))
  {
    var s' := Handled(s, id, order);
    var m, rest := s.inbox[0], s.inbox[1..];
    var more := Requests(order, m.key, m.to);
    assert MsgFits(s.phase, m);
    forall c | c in s'.phase
      ensures Held(s', c)
    {
      if c == m.to {
        forall p | p in m.peers
          ensures InInbox(s'.inbox, Ask(c, p))
        {
          var k :| 0 <= k < |order| && order[k] == p;
          assert (rest + more)[|rest| + k] == more[k] && TokenOf(more[k]) == Some(Ask(c, p));
        }
      } else {
        TakeCarries(s, more, c);
        CarriesHeld(s, s', c);
      }
    }
  }

  lemma RequestHolds(s: State, id: nat, order: seq<Peer>)
    requires Inv(s) && AllHeld(s) && Enabled(s, Handle(id, order)) && s.inbox[0].OutboundRequest?
    ensures AllHeld(Handled(s, id, order))
  {
    var s' := Handled(s, id, order);
    var m := s.inbox[0];
    assert MsgFits(s.phase, m);
    forall c | c in s'.phase
      ensures Held(s', c)
    {
      if c == m.to {
        assert Held(s, c);
        forall p | p in s'.phase[c].asks && p != m.peer
          ensures HeldAsk(s', c, p, s'.phase[c].asks[p])
        {
          assert HeldAsk(s, c, p, s.phase[c].asks[p]);
          if s.phase[c].asks[p].ToAsk? { TailTokens(s.inbox, Ask(c, p)); }
        }
      } else {
        TakeCarries(s, [], c);
        assert s.inbox[1..] + [] == s'.inbox;
        CarriesHeld(s, s', c);
      }
    }
  }

  lemma ResponseHolds(s: State, id: nat, peer: Peer, parsed: bool, ok: bool)
    requires Inv(s) && AllHeld(s) && Enabled(s, Response(id, peer, parsed, ok))
    ensures AllHeld(Responded(s, id, peer, parsed, ok))
  {
    var s' := Responded(s, id, peer, parsed, ok);
    if id in s.requests {
      forall c | c in s'.phase
        ensures Held(s', c)
      {
        if c == s.requests[id].1 {
          RespondedHolds(s, id, peer, parsed, ok);
        } else {
          RespondedCarries(s, id, peer, parsed, ok, c);
          CarriesHeld(s, s', c);
        }
      }
    }
  }

  lemma RespondedSent(s: State, id: nat, peer: Peer, parsed: bool, ok: bool)
    requires id in s.requests
    ensures var s' := Responded(s, id, peer, parsed, ok);
            && (forall t :: InSent(s.sent, t) ==> InSent(s'.sent, t))
            && (parsed ==> InSent(s'.sent, Ask(s.requests[id].1, peer)))
  {
    var s' := Responded(s, id, peer, parsed, ok);
    MoreSent(s.sent, s'.sent[|s.sent|..]);
    assert s.sent + s'.sent[|s.sent|..] == s'.sent;
    if parsed { assert TokenOfSent(s'.sent[|s.sent|]) == Ask(s.requests[id].1, peer); }
  }

  lemma RespondedCarries(s: State, id: nat, peer: Peer, parsed: bool, ok: bool, c: Sender)
    requires Inv(s) && Enabled(s, Response(id, peer, parsed, ok)) && id in s.requests && c != s.requests[id].1
    ensures Carries(s, Responded(s, id, peer, parsed, ok), c)
    ensures var s' := Responded(s, id, peer, parsed, ok);
            c in s'.phase ==> c in s.phase && s'.phase[c] == s.phase[c]
  {
    RespondedSent(s, id, peer, parsed, ok);
  }

  /** The provider that answered is finished with; the others are held as before. */
  lemma RespondedHolds(s: State, id: nat, peer: Peer, parsed: bool, ok: bool)
    requires Inv(s) && AllHeld(s) && Enabled(s, Response(id, peer, parsed, ok)) && id in s.requests
    ensures Held(Responded(s, id, peer, parsed, ok), s.requests[id].1)
  {
    var s', c := Responded(s, id, peer, parsed, ok), s.requests[id].1;
    RespondedSent(s, id, peer, parsed, ok);
    assert Has(s.phase, c, peer, Asked(id)) && Held(s, c);
    forall p | p in s'.phase[c].asks && p != peer
      ensures HeldAsk(s', c, p, s'.phase[c].asks[p])
    {
      assert HeldAsk(s, c, p, s.phase[c].asks[p]);
    }
  }

  lemma AnswerHolds(s: State, id: nat, ok: bool)
    requires Inv(s) && AllHeld(s)
    ensures AllHeld(Answer(s, id, ok))
  {
    var s' := Answer(s, id, ok);
    if id in s.queries {
      MoreSent(s.sent, s'.sent[|s.sent|..]);
      assert s.sent + s'.sent[|s.sent|..] == s'.sent;
      forall c | c in s'.phase
        ensures Held(s', c)
      {
        if s.queries[id].1 == Some(c) {
          assert TokenOfSent(s'.sent[|s.sent|]) == Chan(c);
        } else {
          CarriesHeld(s, s', c);
        }
      }
    }
  }

  lemma FoundHolds(s: State, id: nat, peers: set<Peer>)
    requires Inv(s) && AllHeld(s) && Enabled(s, Result(id, FoundProviders(peers)))
    ensures AllHeld(Resulted(s, id, FoundProviders(peers)))
  {
    var s' := Resulted(s, id, FoundProviders(peers));
    if s' != s {
      var more := s'.inbox[|s.inbox|..];
      assert s.inbox + more == s'.inbox;
      forall c | c in s'.phase
        ensures Held(s', c)
      {
        if s.queries[id].1 == Some(c) {
          NewToken(s.inbox, s'.inbox[|s.inbox|]);
        } else {
          forall t | InInbox(s.inbox, t) ensures InInbox(s'.inbox, t) { MoreTokens(s.inbox, more, t); }
          CarriesHeld(s, s', c);
        }
      }
    }
  }

  lemma ProvideHolds(s: State, id: nat)
    requires Inv(s) && AllHeld(s)
    ensures AllHeld(Resulted(s, id, ProvideDone))
  {
    var s' := Resulted(s, id, ProvideDone);
    if id in s.queries {
      forall c | c in s'.phase
        ensures Held(s', c)
      {
        if s.queries[id].1 != Some(c) { CarriesHeld(s, s', c); }
      }
    }
  }

  lemma StepHolds(s: State, i: Input)
    requires Inv(s) && AllHeld(s) && Enabled(s, i)
    ensures AllHeld(Next(s, i))
  {
    match i
    case Submit(m) => SubmitHolds(s, m);
    case Handle(id, order) =>
      match s.inbox[0] {
        case Providers(_, _, _) => ProvidersHold(s, id, order);
        case OutboundRequest(_, _, _) => RequestHolds(s, id, order);
        case _ => StartHolds(s, id, order);
      }
    case Refuse => RefuseHolds(s);
    case Result(id, r) =>
      match r {
        case FoundProviders(peers) => FoundHolds(s, id, peers);
        case ProvidersFailed => AnswerHolds(s, id, false);
        case FoundRecord(ok) => AnswerHolds(s, id, ok);
        case RecordFailed => AnswerHolds(s, id, false);
        case RecordFinished =>
        case ProvidersFinished =>
        case ProvideDone => ProvideHolds(s, id);
      }
    case Response(id, peer, parsed, ok) => ResponseHolds(s, id, peer, parsed, ok);
    case OutboundFailure(_) =>
  }

  // ---------------------------------------------------------------------------
  // What a response is about
  // ---------------------------------------------------------------------------

  ghost predicate MsgAbout(keys: map<Sender, Key>, m: Msg) {
    TokenOf(m).Some? ==> TokenOf(m).value.sender in keys && m.key == keys[TokenOf(m).value.sender]
  }

  /** A response answers the key of its channel; one straight from a query for providers is an error. */
  ghost predicate SentAbout(keys: map<Sender, Key>, submitted: map<Sender, Kind>, r: Sent) {
    && r.to in keys && r.about == keys[r.to]
    && (r.origin == Direct && r.ok ==> r.to in submitted && submitted[r.to] == RecordQuery)
  }

  ghost predicate InboxAbout(keys: map<Sender, Key>, inbox: seq<Msg>) {
    forall i :: 0 <= i < |inbox| ==> MsgAbout(keys, inbox[i])
  }

  ghost predicate QueriesAbout(keys: map<Sender, Key>, queries: map<nat, (Key, Option<Sender>)>) {
    forall id :: id in queries && queries[id].1.Some? ==>
      queries[id].1.value in keys && queries[id].0 == keys[queries[id].1.value]
  }

  ghost predicate RequestsAbout(keys: map<Sender, Key>, requests: map<nat, (Key, Sender)>) {
    forall id :: id in requests ==> requests[id].1 in keys && requests[id].0 == keys[requests[id].1]
  }

  ghost predicate SentsAbout(keys: map<Sender, Key>, submitted: map<Sender, Kind>, sent: seq<Sent>) {
    forall k :: 0 <= k < |sent| ==> SentAbout(keys, submitted, sent[k])
  }

  /** Whatever is under way for a channel is about the key it was made for. */
  ghost predicate About(s: State) {
    && s.keys.Keys == s.submitted.Keys
    && InboxAbout(s.keys, s.inbox) && QueriesAbout(s.keys, s.queries) && RequestsAbout(s.keys, s.requests)
    && SentsAbout(s.keys, s.submitted, s.sent)
  }

  lemma TailAbout(keys: map<Sender, Key>, inbox: seq<Msg>, more: seq<Msg>)
    requires inbox != [] && InboxAbout(keys, inbox) && InboxAbout(keys, more)
    ensures InboxAbout(keys, inbox[1..] + more) && InboxAbout(keys, inbox[1..])
  {
    assert forall i :: 0 <= i < |inbox[1..]| ==> inbox[1..][i] == inbox[i + 1];
  }

  lemma HandleAbout(s: State, id: nat, order: seq<Peer>)
    requires About(s) && Enabled(s, Handle(id, order))
    ensures About(Handled(s, id, order))
  {
    var s', m := Handled(s, id, order), s.inbox[0];
    assert MsgAbout(s.keys, m);
    assert InboxAbout(s.keys, s'.inbox) by {
      TailAbout(s.keys, s.inbox, if m.Providers? then Requests(order, m.key, m.to) else []);
    }
    assert QueriesAbout(s.keys, s'.queries);
    assert RequestsAbout(s.keys, s'.requests);
  }

  lemma SubmitAbout(s: State, m: Msg)
    requires About(s) && Enabled(s, Submit(m)) && s.phase.Keys == s.submitted.Keys
    ensures About(Next(s, Submit(m)))
  {
    var s' := Next(s, Submit(m));
    forall i | 0 <= i < |s'.inbox|
      ensures MsgAbout(s'.keys, s'.inbox[i])
    {
      assert i < |s.inbox| ==> MsgAbout(s.keys, s.inbox[i]);
    }
    forall k | 0 <= k < |s.sent|
      ensures SentAbout(s'.keys, s'.submitted, s.sent[k])
    {
      assert SentAbout(s.keys, s.submitted, s.sent[k]);
    }
  }

  lemma AnswerAbout(s: State, id: nat, ok: bool)
    requires Inv(s) && About(s) && id in s.kinds && (ok ==> s.kinds[id] == RecordQuery)
    ensures About(Answer(s, id, ok))
  {
    if id in s.queries && s.queries[id].1.Some? {
      var c := s.queries[id].1.value;
      assert s.phase[c] == Querying(s.kinds[id], id);
    }
  }

  lemma FoundAbout(s: State, id: nat, peers: set<Peer>)
    requires About(s)
    ensures About(Resulted(s, id, FoundProviders(peers)))
  {
  }

  lemma ResponseAbout(s: State, id: nat, peer: Peer, parsed: bool, ok: bool)
    requires About(s)
    ensures About(Responded(s, id, peer, parsed, ok))
  {
  }

  lemma StepAbout(s: State, i: Input)
    requires Inv(s) && About(s) && Enabled(s, i)
    ensures About(Next(s, i))
  {
    match i
    case Submit(m) => SubmitAbout(s, m);
    case Handle(id, order) => HandleAbout(s, id, order);
    case Refuse => TailAbout(s.keys, s.inbox, []);
    case Result(id, r) =>
      match r {
        case FoundProviders(peers) => FoundAbout(s, id, peers);
        case ProvidersFailed => AnswerAbout(s, id, false);
        case FoundRecord(ok) => AnswerAbout(s, id, ok);
        case RecordFinished =>
        case ProvidersFinished =>
        case RecordFailed => AnswerAbout(s, id, false);
        case ProvideDone =>
      }
    case Response(id, peer, parsed, ok) => ResponseAbout(s, id, peer, parsed, ok);
    case OutboundFailure(_) =>
  }

  // ---------------------------------------------------------------------------
  // Whole runs
  // ---------------------------------------------------------------------------

  lemma {:induction false} RunKeeps(s: State, inputs: seq<Input>)
    requires Inv(s) && AllHeld(s) && About(s) && CanRun(s, inputs)
    ensures Inv(Run(s, inputs)) && AllHeld(Run(s, inputs)) && About(Run(s, inputs))
    ensures Run(s, inputs).local == s.local
    decreases |inputs|
  {
    if inputs != [] {
      StepKeeps(s, inputs[0]);
      StepHolds(s, inputs[0]);
      StepAbout(s, inputs[0]);
      RunKeeps(Next(s, inputs[0]), inputs[1..]);
    }
  }

  /** Every key the responses are for is a CID. */
  ghost predicate Parses(inputs: seq<Input>) {
    forall k :: 0 <= k < |inputs| && inputs[k].Response? ==> inputs[k].parsed
  }

  ghost predicate NoneDropped(phase: Phases) {
    forall c, p :: !Has(phase, c, p, Finished(false))
  }

  lemma PutDropsNone(phase: Phases, c: Option<Sender>, x: Phase)
    requires NoneDropped(phase) && (x.Asking? ==> forall p :: p in x.asks ==> x.asks[p] == ToAsk)
    ensures NoneDropped(Put(phase, c, x))
  {
    forall d, p
      ensures !Has(Put(phase, c, x), d, p, Finished(false))
    {
      assert !Has(phase, d, p, Finished(false));
    }
  }

  lemma SetDropsNone(phase: Phases, c: Sender, p: Peer, a: Asked)
    requires NoneDropped(phase) && a != Finished(false)
    ensures NoneDropped(SetAsked(phase, c, p, a))
  {
    forall d, q
      ensures !Has(SetAsked(phase, c, p, a), d, q, Finished(false))
    {
      assert !Has(phase, d, q, Finished(false));
    }
  }

  lemma ResultDropsNone(s: State, id: nat, r: QueryResult)
    requires NoneDropped(s.phase)
    ensures NoneDropped(Resulted(s, id, r).phase)
  {
    if id in s.queries {
      match r
      case FoundProviders(peers) => PutDropsNone(s.phase, s.queries[id].1, Found(peers - {s.local}));
      case ProvideDone => PutDropsNone(s.phase, s.queries[id].1, Unanswered);
      case _ => PutDropsNone(s.phase, s.queries[id].1, Closed);
    }
  }

  lemma StepDropsNone(s: State, i: Input)
    requires NoneDropped(s.phase) && Enabled(s, i) && (i.Response? ==> i.parsed)
    ensures NoneDropped(Next(s, i).phase)
  {
    match i
    case Submit(m) => PutDropsNone(s.phase, Waiting(m), Queued(KindOf(m).value));
    case Handle(id, _) =>
      match s.inbox[0] {
        case Providers(peers, _, to) => PutDropsNone(s.phase, Some(to), Asking(map p | p in peers :: ToAsk));
        case OutboundRequest(peer, _, to) => SetDropsNone(s.phase, to, peer, Asked(id));
        case m => PutDropsNone(s.phase, Waiting(m), Querying(KindOf(m).value, id));
      }
    case Refuse => PutDropsNone(s.phase, s.inbox[0].sender, Unanswered);
    case Result(id, r) => ResultDropsNone(s, id, r);
    case Response(id, peer, parsed, _) =>
      if id in s.requests { SetDropsNone(s.phase, s.requests[id].1, peer, Finished(parsed)); }
    case OutboundFailure(_) =>
  }

  lemma {:induction false} RunDropsNone(s: State, inputs: seq<Input>)
    requires NoneDropped(s.phase) && CanRun(s, inputs) && Parses(inputs)
    ensures NoneDropped(Run(s, inputs).phase)
    decreases |inputs|
  {
    if inputs != [] {
      StepDropsNone(s, inputs[0]);
      RunDropsNone(Next(s, inputs[0]), inputs[1..]);
    }
  }

  /** The responses on a channel, in order: where each came from. */
  ghost function OriginsTo(sent: seq<Sent>, c: Sender): seq<Origin> {
    if sent == [] then []
    else
      var got := OriginsTo(sent[..|sent| - 1], c);
      var last := sent[|sent| - 1];
      if last.to == c then got + [last.origin] else got
  }

  /** The responses on a channel, in order, with their outcome. */
  ghost function HeardBy(sent: seq<Sent>, c: Sender): seq<Heard> {
    if sent == [] then []
    else
      var got := HeardBy(sent[..|sent| - 1], c);
      var last := sent[|sent| - 1];
      if last.to == c then got + [Heard(last.origin, last.ok)] else got
  }

  ghost function Origins(got: seq<Heard>): seq<Origin> {
    seq(|got|, k requires 0 <= k < |got| => got[k].origin)
  }

  lemma {:induction false} OriginsAgree(sent: seq<Sent>, c: Sender)
    ensures OriginsTo(sent, c) == Origins(HeardBy(sent, c))
  {
    if sent != [] {
      OriginsAgree(sent[..|sent| - 1], c);
    }
  }

  ghost function TokenFor(c: Sender, o: Origin): Token {
    match o
    case Direct => Chan(c)
    case FromPeer(p) => Ask(c, p)
  }

  ghost predicate Distinct(got: seq<Origin>) {
    forall i, j :: 0 <= i < j < |got| ==> got[i] != got[j]
  }

  /** A channel got each of its responses once, and got exactly the ones that were sent. */
  lemma {:induction false} OriginsAre(sent: seq<Sent>, c: Sender, phase: Phases)
    requires SentOk(sent, phase)
    ensures Distinct(OriginsTo(sent, c))
    ensures forall o :: o in OriginsTo(sent, c) <==> InSent(sent, TokenFor(c, o))
  {
    if sent != [] {
      var init, last := sent[..|sent| - 1], sent[|sent| - 1];
      OriginsAre(init, c, phase);
      forall o
        ensures o in OriginsTo(sent, c) <==> InSent(sent, TokenFor(c, o))
      {
        assert InSent(init, TokenFor(c, o)) ==> InSent(sent, TokenFor(c, o)) by {
          MoreSent(init, [last]);
          assert init + [last] == sent;
        }
        assert TokenOfSent(last) == TokenFor(c, o) ==> InSent(sent, TokenFor(c, o));
        if InSent(sent, TokenFor(c, o)) {
          var k :| 0 <= k < |sent| && TokenOfSent(sent[k]) == TokenFor(c, o);
          assert k < |init| ==> init[k] == sent[k];
        }
      }
      assert forall k :: 0 <= k < |init| ==> init[k] == sent[k];
      assert last.to == c ==> !InSent(init, TokenFor(c, last.origin));
    }
  }

  lemma HeardMore(sent: seq<Sent>, r: Sent, c: Sender)
    ensures HeardBy(sent + [r], c) == HeardBy(sent, c) + if r.to == c then [Heard(r.origin, r.ok)] else []
  {
    assert (sent + [r])[..|sent|] == sent;
  }

  /** Results that end a query: providers other than the local peer, a record, or a failure. */
  predicate Ends(local: Peer, r: QueryResult) {
    match r
    case FoundProviders(peers) => peers - {local} != {}
    case RecordFinished => false
    case ProvidersFinished => false
    case _ => true
  }

  /** The query is pending, and the channel waits for it. */
  ghost predicate Pends(s: State, id: nat, c: Sender) {
    id in s.queries && s.queries[id].1 == Some(c)
  }

  /**
   What an input makes a channel hear: whether the record found for its query decodes, that its
   query failed, or what a provider that was asked for it says.
   */
  ghost function Hears(s: State, i: Input, c: Sender): seq<Heard> {
    match i
    case Result(id, FoundRecord(decodes)) => if Pends(s, id, c) then [Heard(Direct, decodes)] else []
    case Result(id, RecordFailed) => if Pends(s, id, c) then [Heard(Direct, false)] else []
    case Result(id, ProvidersFailed) => if Pends(s, id, c) then [Heard(Direct, false)] else []
    case Response(id, peer, parsed, ok) =>
      if id in s.requests && s.requests[id].1 == c && parsed then [Heard(FromPeer(peer), ok)] else []
    case _ => []
  }

  /** A channel that heard something is answered, or is waiting for providers of which one answered. */
  lemma HeardBefore(s: State, c: Sender)
    requires Inv(s)
    ensures forall o :: o in OriginsTo(s.sent, c) ==>
              && c in s.phase
              && (o == Direct ==> s.phase[c] == Closed)
              && (o.FromPeer? ==> Has(s.phase, c, o.peer, Finished(true)))
    ensures c !in s.phase || s.phase[c].Querying? ==> OriginsTo(s.sent, c) == []
  {
    var got := OriginsTo(s.sent, c);
    OriginsAre(s.sent, c, s.phase);
    forall o | o in got
      ensures c in s.phase
      ensures o == Direct ==> s.phase[c] == Closed
      ensures o.FromPeer? ==> Has(s.phase, c, o.peer, Finished(true))
    {
      var k :| 0 <= k < |s.sent| && TokenOfSent(s.sent[k]) == TokenFor(c, o);
      assert SentFits(s.phase, s.sent[k]);
    }
    if got != [] { assert got[0] in got; }
  }

  /** A response straight from a query is the first on its channel; a provider's is the first of that provider. */
  ghost predicate New(got: seq<Origin>, more: seq<Origin>) {
    && |more| <= 1
    && (more == [Direct] ==> got == [])
    && forall o :: o in more && o.FromPeer? ==> o !in got && Direct !in got
  }

  lemma ResultHeard(s: State, id: nat, r: QueryResult, c: Sender)
    requires Inv(s) && Enabled(s, Result(id, r))
    ensures HeardBy(Resulted(s, id, r).sent, c) == HeardBy(s.sent, c) + Hears(s, Result(id, r), c)
    ensures Hears(s, Result(id, r), c) != [] ==> c in s.phase && s.phase[c].Querying?
  {
    match r
    case ProvidersFailed => AnswerHeard(s, id, false, c);
    case RecordFailed => AnswerHeard(s, id, false, c);
    case FoundRecord(ok) => AnswerHeard(s, id, ok, c);
    case _ => assert Resulted(s, id, r).sent == s.sent;
  }

  lemma AnswerHeard(s: State, id: nat, ok: bool, c: Sender)
    ensures HeardBy(Answer(s, id, ok).sent, c) == HeardBy(s.sent, c) + if Pends(s, id, c) then [Heard(Direct, ok)] else []
  {
    if id in s.queries && s.queries[id].1.Some? {
      HeardMore(s.sent, Sent(s.queries[id].1.value, s.queries[id].0, Direct, ok), c);
    }
  }

  lemma ResponseHeard(s: State, id: nat, peer: Peer, parsed: bool, ok: bool, c: Sender)
    requires Inv(s) && Enabled(s, Response(id, peer, parsed, ok))
    ensures HeardBy(Responded(s, id, peer, parsed, ok).sent, c)
         == HeardBy(s.sent, c) + Hears(s, Response(id, peer, parsed, ok), c)
    ensures Hears(s, Response(id, peer, parsed, ok), c) != [] ==> Has(s.phase, c, peer, Asked(id))
  {
    if id in s.requests {
      HeardMore(s.sent, Sent(s.requests[id].1, s.requests[id].0, FromPeer(peer), ok), c);
    }
  }

  /** What a channel hears at each input, with its outcome, and that it comes from where nothing came before. */
  lemma Responses(s: State, i: Input, c: Sender)
    requires Inv(s) && Enabled(s, i)
    ensures HeardBy(Next(s, i).sent, c) == HeardBy(s.sent, c) + Hears(s, i, c)
    ensures New(Origins(HeardBy(s.sent, c)), Origins(Hears(s, i, c)))
  {
    match i
    case Result(id, r) =>
      ResultHeard(s, id, r, c);
      ResultNew(s, id, r, c);
    case Response(id, peer, parsed, ok) =>
      ResponseHeard(s, id, peer, parsed, ok, c);
      ResponseNew(s, id, peer, parsed, ok, c);
    case _ => assert Next(s, i).sent == s.sent;
  }

  lemma ResultNew(s: State, id: nat, r: QueryResult, c: Sender)
    requires Inv(s) && (Hears(s, Result(id, r), c) != [] ==> c in s.phase && s.phase[c].Querying?)
    ensures New(Origins(HeardBy(s.sent, c)), Origins(Hears(s, Result(id, r), c)))
  {
    HeardBefore(s, c);
    OriginsAgree(s.sent, c);
  }

  lemma ResponseNew(s: State, id: nat, peer: Peer, parsed: bool, ok: bool, c: Sender)
    requires Inv(s) && (Hears(s, Response(id, peer, parsed, ok), c) != [] ==> Has(s.phase, c, peer, Asked(id)))
    ensures New(Origins(HeardBy(s.sent, c)), Origins(Hears(s, Response(id, peer, parsed, ok), c)))
  {
    HeardBefore(s, c);
    OriginsAgree(s.sent, c);
    assert Origins([Heard(FromPeer(peer), ok)]) == [FromPeer(peer)];
  }

  /** The providers a channel's query found. */
  ghost function Contacted(s: State, c: Sender): set<Peer> {
    if c in s.phase && s.phase[c].Asking? then s.phase[c].asks.Keys else {}
  }

  ghost predicate Quiet(s: State) {
    s.inbox == [] && s.queries == map[] && s.requests == map[]
  }

  /** What a channel may have got, by the kind of its query. */
  ghost predicate Due(s: State, c: Sender, got: seq<Origin>) {
    if c !in s.submitted || s.submitted[c] == ProvideQuery then got == []
    else if s.submitted[c] == RecordQuery then got == [] || got == [Direct]
    else
      || got == [Direct]
      || (Distinct(got) && forall o :: o in got ==> o.FromPeer? && o.peer in Contacted(s, c) && o.peer != s.local)
  }

  /** What a channel must have got once nothing is pending. */
  ghost predicate Settled(s: State, c: Sender, got: seq<Origin>)
    requires c in s.submitted
  {
    && (s.submitted[c] == RecordQuery ==> got == [Direct])
    && (s.submitted[c] == ProviderQuery ==> got == [Direct] || forall p :: p in Contacted(s, c) ==> FromPeer(p) in got)
  }

  lemma OnlyDirect(got: seq<Origin>)
    requires Distinct(got) && forall o :: o in got ==> o == Direct
    ensures got == [] || got == [Direct]
  {
    assert 1 < |got| ==> got[0] != got[1];
    forall i | 0 <= i < |got|
      ensures got[i] == Direct
    {
      assert got[i] in got;
    }
  }

  lemma DueIs(s: State, c: Sender)
    requires Inv(s)
    ensures Due(s, c, OriginsTo(s.sent, c))
  {
    var got := OriginsTo(s.sent, c);
    OriginsAre(s.sent, c, s.phase);
    HeardBefore(s, c);
    if got != [] { assert got[0] in got; }
    if c in s.phase && s.phase[c] == Closed { OnlyDirect(got); }
  }

  lemma SettledIs(s: State, c: Sender)
    requires Inv(s) && AllHeld(s) && NoneDropped(s.phase) && Quiet(s) && c in s.submitted
    ensures Settled(s, c, OriginsTo(s.sent, c))
  {
    var got := OriginsTo(s.sent, c);
    OriginsAre(s.sent, c, s.phase);
    DueIs(s, c);
    assert Held(s, c);
    match s.phase[c]
    case Asking(asks) =>
      forall p | p in asks
        ensures FromPeer(p) in got
      {
        assert HeldAsk(s, c, p, asks[p]) && !Has(s.phase, c, p, Finished(false));
      }
    case Closed => assert Direct in got;
    case _ =>
  }

  // ---------------------------------------------------------------------------
  // When a query ends
  // ---------------------------------------------------------------------------

  ghost predicate Ended(local: Peer, inputs: seq<Input>, id: nat) {
    exists k :: 0 <= k < |inputs| && inputs[k].Result? && inputs[k].id == id && Ends(local, inputs[k].result)
  }

  lemma EndedIs(local: Peer, inputs: seq<Input>, id: nat)
    requires inputs != []
    ensures Ended(local, inputs, id)
       <==> (inputs[0].Result? && inputs[0].id == id && Ends(local, inputs[0].result)) || Ended(local, inputs[1..], id)
  {
    var rest := inputs[1..];
    if k :| 0 <= k < |inputs| && inputs[k].Result? && inputs[k].id == id && Ends(local, inputs[k].result) {
      assert k > 0 ==> rest[k - 1] == inputs[k];
    }
    if k :| 0 <= k < |rest| && rest[k].Result? && rest[k].id == id && Ends(local, rest[k].result) {
      assert inputs[k + 1] == rest[k];
    }
  }

  lemma HandlePends(s: State, id': nat, order: seq<Peer>, id: nat)
    requires Enabled(s, Handle(id', order)) && id in s.kinds
    ensures var s' := Handled(s, id', order);
            && id in s'.kinds && (id in s'.queries <==> id in s.queries)
            && (id in s'.queries ==> s'.queries[id] == s.queries[id])
  {
  }

  lemma ResultPends(s: State, id': nat, r: QueryResult, id: nat)
    ensures var s' := Resulted(s, id', r);
            && s'.kinds == s.kinds
            && (id in s'.queries <==> id in s.queries && !(id' == id && Ends(s.local, r)))
            && (id in s'.queries ==> s'.queries[id] == s.queries[id])
  {
    var s' := Resulted(s, id', r);
    assert s'.queries == if Ends(s.local, r) then s.queries - {id'} else s.queries;
  }

  lemma StepPends(s: State, i: Input, id: nat)
    requires Enabled(s, i) && id in s.kinds
    ensures id in Next(s, i).kinds && Next(s, i).local == s.local
    ensures id in Next(s, i).queries
       <==> id in s.queries && !(i.Result? && i.id == id && Ends(s.local, i.result))
    ensures id in Next(s, i).queries ==> Next(s, i).queries[id] == s.queries[id]
  {
    match i
    case Handle(id', order) => HandlePends(s, id', order, id);
    case Result(id', r) => ResultPends(s, id', r, id);
    case _ =>
  }

  lemma {:induction false} RunPends(s: State, inputs: seq<Input>, id: nat)
    requires CanRun(s, inputs) && id in s.kinds
    ensures id in Run(s, inputs).queries <==> id in s.queries && !Ended(s.local, inputs, id)
    ensures id in Run(s, inputs).queries ==> Run(s, inputs).queries[id] == s.queries[id]
    decreases |inputs|
  {
    if inputs != [] {
      StepPends(s, inputs[0], id);
      EndedIs(s.local, inputs, id);
      RunPends(Next(s, inputs[0]), inputs[1..], id);
    }
  }

  /**
   A query is pending, and its channel without any response, exactly until a result ends
   it. Providers that are all the local peer are no such result: a query that finds no
   others stays pending, whatever else happens.
   */
  lemma PendingExactly(s: State, inputs: seq<Input>, id: nat)
    requires Inv(s) && AllHeld(s) && About(s) && CanRun(s, inputs) && id in s.queries
    ensures id in Run(s, inputs).queries <==> !Ended(s.local, inputs, id)
    ensures !Ended(s.local, inputs, id) && s.queries[id].1.Some? ==>
              OriginsTo(Run(s, inputs).sent, s.queries[id].1.value) == []
  {
    RunPends(s, inputs, id);
    RunKeeps(s, inputs);
    var end := Run(s, inputs);
    if id in end.queries && s.queries[id].1.Some? { HeardBefore(end, s.queries[id].1.value); }
  }

  // ---------------------------------------------------------------------------
  // When a request ends
  // ---------------------------------------------------------------------------

  ghost predicate Arrived(inputs: seq<Input>, id: nat) {
    exists k :: 0 <= k < |inputs| && inputs[k].Response? && inputs[k].id == id
  }

  lemma ArrivedIs(inputs: seq<Input>, id: nat)
    requires inputs != []
    ensures Arrived(inputs, id) <==> (inputs[0].Response? && inputs[0].id == id) || Arrived(inputs[1..], id)
  {
    var rest := inputs[1..];
    if k :| 0 <= k < |inputs| && inputs[k].Response? && inputs[k].id == id { assert k > 0 ==> rest[k - 1] == inputs[k]; }
    if k :| 0 <= k < |rest| && rest[k].Response? && rest[k].id == id { assert inputs[k + 1] == rest[k]; }
  }

  lemma AskedStays(s: State, id': nat, order: seq<Peer>, id: nat)
    requires Enabled(s, Handle(id', order)) && id in s.asked
    ensures var s' := Handled(s, id', order);
            && id in s'.asked && s'.asked[id] == s.asked[id] && (id in s'.requests <==> id in s.requests)
            && (id in s'.requests ==> s'.requests[id] == s.requests[id])
  {
  }

  lemma StepAwaits(s: State, i: Input, id: nat)
    requires Enabled(s, i) && id in s.asked
    ensures var s' := Next(s, i);
            && id in s'.asked && s'.asked[id] == s.asked[id]
            && (id in s'.requests <==> id in s.requests && !(i.Response? && i.id == id))
            && (id in s'.requests ==> s'.requests[id] == s.requests[id])
  {
    match i
    case Handle(id', order) => AskedStays(s, id', order, id);
    case Result(id', r) => assert Next(s, i).requests == s.requests && Next(s, i).asked == s.asked;
    case _ =>
  }

  lemma {:induction false} RunAwaits(s: State, inputs: seq<Input>, id: nat)
    requires CanRun(s, inputs) && id in s.asked
    ensures var s' := Run(s, inputs);
            && id in s'.asked && s'.asked[id] == s.asked[id]
            && (id in s'.requests <==> id in s.requests && !Arrived(inputs, id))
            && (id in s'.requests ==> s'.requests[id] == s.requests[id])
    decreases |inputs|
  {
    if inputs != [] {
      StepAwaits(s, inputs[0], id);
      ArrivedIs(inputs, id);
      RunAwaits(Next(s, inputs[0]), inputs[1..], id);
    }
  }

  /**
   A request to a provider is pending, and its channel without that provider's response,
   exactly until the response arrives. That the provider could not be reached is not noticed.
   */
  lemma RequestPendingExactly(s: State, inputs: seq<Input>, id: nat)
    requires Inv(s) && AllHeld(s) && About(s) && CanRun(s, inputs) && id in s.requests
    ensures id in Run(s, inputs).requests <==> !Arrived(inputs, id)
    ensures id in s.asked && (!Arrived(inputs, id) ==>
              FromPeer(s.asked[id]) !in OriginsTo(Run(s, inputs).sent, s.requests[id].1))
  {
    RunAwaits(s, inputs, id);
    RunKeeps(s, inputs);
    var end := Run(s, inputs);
    HeardBefore(end, s.requests[id].1);
  }
}
