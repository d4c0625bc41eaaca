/**
 Pending queries of the event handler: which channel waits for which query, and how
 many responses each channel gets over every sequence of events.
 */
module PendingQueries {
  import opened Wrappers
  import opened IpldModel

  type Peer = nat
  type Sender = nat

  datatype Tag = ReceiptTag | WorkflowTag

  datatype Key = Key(cid: Cid, tag: Tag)

  /** Internal events on the handler's channel. */
  datatype Msg =
    | FindRecord(key: Key, sender: Option<Sender>)
    | GetProviders(key: Key, sender: Option<Sender>)
    | ProvideRecord(key: Key, sender: Option<Sender>)
    | Providers(peers: set<Peer>, key: Key, to: Sender)
    | OutboundRequest(peer: Peer, key: Key, to: Sender)

  datatype Kind = RecordQuery | ProviderQuery | ProvideQuery

  /** What the swarm reports of a query. */
  datatype QueryResult =
    | FoundProviders(peers: set<Peer>)
    | ProvidersFinished
    | ProvidersFailed
    | FoundRecord(ok: bool)
    | RecordFinished
    | RecordFailed
    | ProvideDone

  /** A response on a channel: straight from a query, or from a provider that was asked. */
  datatype Origin = Direct | FromPeer(peer: Peer)

  /** What a channel hears: where it came from, and whether it brought what was asked for or an error. */
  datatype Heard = Heard(origin: Origin, ok: bool)

  datatype Sent = Sent(to: Sender, about: Key, origin: Origin, ok: bool)

  /** Where the obligation to answer a channel lies. */
  datatype Phase =
    | Queued(kind: Kind)
    | Querying(kind: Kind, id: nat)
    | Found(peers: set<Peer>)
    | Asking(asks: map<Peer, Asked>)
    | Closed
    | Unanswered

  /** A provider is to be asked, was asked by a request, or is done with, its response passed on or not. */
  datatype Asked = ToAsk | Asked(id: nat) | Finished(answered: bool)

  type Phases = map<Sender, Phase>

  /**
   The tables of the handler and its channel; what the swarm knows of the queries and
   requests it was given; the responses sent; and, for each channel, the kind and the key
   of the query it was made for and its phase.
   */
  datatype State = State(
    local: Peer,
    queries: map<nat, (Key, Option<Sender>)>,
    requests: map<nat, (Key, Sender)>,
    inbox: seq<Msg>,
    kinds: map<nat, Kind>,
    asked: map<nat, Peer>,
    sent: seq<Sent>,
    submitted: map<Sender, Kind>,
    keys: map<Sender, Key>,
    phase: Phases)

  datatype Input =
    | Submit(msg: Msg)
    | Handle(id: nat, order: seq<Peer>)
    | Refuse
    | Result(id: nat, result: QueryResult)
    | Response(id: nat, peer: Peer, parsed: bool, ok: bool)
    | OutboundFailure(id: nat)

  function KindOf(m: Msg): Option<Kind> {
    match m
    case FindRecord(_, _) => Some(RecordQuery)
    case GetProviders(_, _) => Some(ProviderQuery)
    case ProvideRecord(_, _) => Some(ProvideQuery)
    case _ => None
  }

  /** The channel a request for a query carries. */
  function Waiting(m: Msg): Option<Sender> {
    match m
    case FindRecord(_, s) => s
    case GetProviders(_, s) => s
    case ProvideRecord(_, s) => s
    case _ => None
  }

  predicate Matches(k: Kind, r: QueryResult) {
    match r
    case FoundProviders(_) => k == ProviderQuery
    case ProvidersFinished => k == ProviderQuery
    case ProvidersFailed => k == ProviderQuery
    case FoundRecord(_) => k == RecordQuery
    case RecordFinished => k == RecordQuery
    case RecordFailed => k == RecordQuery
    case ProvideDone => k == ProvideQuery
  }

  predicate Enumerates(order: seq<Peer>, peers: set<Peer>) {
    && (forall i, j :: 0 <= i < j < |order| ==> order[i] != order[j])
    && (forall p :: p in order ==> p in peers)
    && (forall p :: p in peers ==> p in order)
  }

  /**
   Callers make a new channel for each query; the swarm numbers queries and requests
   afresh, reports results of the kind that was asked for, and delivers a response
   from the peer the request went to, or reports that it could not reach it.
   */
  predicate Enabled(s: State, i: Input) {
    match i
    case Submit(m) => KindOf(m).Some? && (Waiting(m).Some? ==> Waiting(m).value !in s.phase)
    case Handle(id, order) =>
      && s.inbox != []
      && (match s.inbox[0]
          case Providers(peers, _, _) => Enumerates(order, peers)
          case OutboundRequest(_, _, _) => id !in s.asked
          case _ => id !in s.kinds)
    case Refuse => s.inbox != [] && s.inbox[0].ProvideRecord?
    case Result(id, r) => id in s.kinds && Matches(s.kinds[id], r)
    case Response(id, peer, _, _) => id in s.asked && s.asked[id] == peer
    case OutboundFailure(id) => id in s.asked
  }

  function Requests(order: seq<Peer>, key: Key, sender: Sender): seq<Msg> {
    seq(|order|, k requires 0 <= k < |order| => OutboundRequest(order[k], key, sender))
  }

  function Put<T>(m: map<Sender, T>, s: Option<Sender>, x: T): map<Sender, T> {
    if s.Some? then m[s.value := x] else m
  }

  function SetAsked(phase: Phases, sender: Sender, peer: Peer, a: Asked): Phases {
    if sender in phase && phase[sender].Asking? then phase[sender := Asking(phase[sender].asks[peer := a])] else phase
  }

  function Handled(s: State, id: nat, order: seq<Peer>): State
    requires Enabled(s, Handle(id, order))
  {
    var m, rest := s.inbox[0], s.inbox[1..];
    match m
    case Providers(peers, key, sender) =>
      s.(inbox := rest + Requests(order, key, sender), phase := s.phase[sender := Asking(map p | p in peers :: ToAsk)])
    case OutboundRequest(peer, key, sender) =>
      s.(inbox := rest, requests := s.requests[id := (key, sender)], asked := s.asked[id := peer],
         phase := SetAsked(s.phase, sender, peer, Asked(id)))
    case _ =>
      s.(inbox := rest, queries := s.queries[id := (m.key, Waiting(m))], kinds := s.kinds[id := KindOf(m).value],
         phase := Put(s.phase, Waiting(m), Querying(KindOf(m).value, id)))
  }

  /** Remove the query and send its channel, if it has one, a response. */
  function Answer(s: State, id: nat, ok: bool): State {
    if id !in s.queries then s
    else
      var (key, sender) := s.queries[id];
      s.(queries := s.queries - {id},
         sent := if sender.Some? then s.sent + [Sent(sender.value, key, Direct, ok)] else s.sent,
         phase := Put(s.phase, sender, Closed))
  }

  function Resulted(s: State, id: nat, r: QueryResult): State {
    match r
    case FoundProviders(found) =>
      var peers := found - {s.local};
      if peers == {} || id !in s.queries then s
      else
        var (key, sender) := s.queries[id];
        s.(queries := s.queries - {id},
           inbox := if sender.Some? then s.inbox + [Providers(peers, key, sender.value)] else s.inbox,
           phase := Put(s.phase, sender, Found(peers)))
    case ProvidersFinished => s
    case ProvidersFailed => Answer(s, id, false)
    case FoundRecord(ok) => Answer(s, id, ok)
    case RecordFinished => s
    case RecordFailed => Answer(s, id, false)
    case ProvideDone =>
      if id !in s.queries then s
      else s.(queries := s.queries - {id}, phase := Put(s.phase, s.queries[id].1, Unanswered))
  }

  /** A response of a provider, dropped when the CID it was asked for does not parse. */
  function Responded(s: State, id: nat, peer: Peer, parsed: bool, ok: bool): State {
    if id !in s.requests then s
    else
      var (key, sender) := s.requests[id];
      s.(requests := s.requests - {id},
         sent := if parsed then s.sent + [Sent(sender, key, FromPeer(peer), ok)] else s.sent,
         phase := SetAsked(s.phase, sender, peer, Finished(parsed)))
  }

  /** The store refuses to provide the record: the request is dropped. */
  function Refused(s: State): State
    requires Enabled(s, Refuse)
  {
    s.(inbox := s.inbox[1..], phase := Put(s.phase, s.inbox[0].sender, Unanswered))
  }

  function Next(s: State, i: Input): State
    requires Enabled(s, i)
  {
    match i
    case Submit(m) =>
      s.(inbox := s.inbox + [m], phase := Put(s.phase, Waiting(m), Queued(KindOf(m).value)),
         submitted := Put(s.submitted, Waiting(m), KindOf(m).value), keys := Put(s.keys, Waiting(m), m.key))
    case Handle(id, order) => Handled(s, id, order)
    case Refuse => Refused(s)
    case Result(id, r) => Resulted(s, id, r)
    case Response(id, peer, parsed, ok) => Responded(s, id, peer, parsed, ok)
    case OutboundFailure(_) => s
  }

  function Initial(local: Peer): State {
    State(local, map[], map[], [], map[], map[], [], map[], map[], map[])
  }

  ghost predicate CanRun(s: State, inputs: seq<Input>)
    decreases |inputs|
  {
    inputs == [] || (Enabled(s, inputs[0]) && CanRun(Next(s, inputs[0]), inputs[1..]))
  }

  ghost function Run(s: State, inputs: seq<Input>): State
    requires CanRun(s, inputs)
    decreases |inputs|
  {
    if inputs == [] then s else Run(Next(s, inputs[0]), inputs[1..])
  }
}
