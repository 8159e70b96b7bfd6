/** A client asks the host to open a UDP port. Requests and responses cross a
    network that may drop, delay, reorder and repeat them; any number of calls
    from any number of clients are in flight. On the host the receive loop tracks
    a request and opens its port in two steps, between which the reaper may remove
    the session; whoever removes a session notifies the lease owner later. */
module OpenUdpProtocol {
  import opened Wrappers
  import opened Overlay
  import opened Sessions
  import U = UdpLeases

  type RequestId = string
  type CallId = nat

  datatype Message =
    | Request(sid: SessionId, rid: RequestId, port: Port)
    | Response(sid: SessionId, rid: RequestId, port: Port, error: Option<UdpError>)

  datatype Failure = Cancelled | OverlayClosed | Refused(error: UdpError)

  /** Where a call of OpenUDP is: its request is registered but not sent, it
      waits for the result, it is about to leave the request table, or it has
      returned. No failure means it returned nil. */
  datatype Phase = Sending | Waiting | Leaving(failure: Option<Failure>) | Returned(failure: Option<Failure>)

  /** A call and its one-slot result channel. */
  datatype Call = Call(sid: SessionId, port: Port, rid: RequestId, phase: Phase, slot: Option<Option<UdpError>>)

  /** The client's receive loop between looking a request up and sending on its
      channel. */
  datatype Lookup = Lookup(call: CallId, error: Option<UdpError>)

  /** The host's receive loop: between requests, or between tracking one, at
      `at`, and opening its port. */
  datatype Loop = Idle | Opening(request: Message, at: Time)

  datatype State = State(
    calls: map<CallId, Call>,
    requests: map<(SessionId, RequestId), CallId>,
    out: map<SessionId, seq<Message>>,
    lookups: map<SessionId, Lookup>,
    closed: set<SessionId>,
    network: set<Message>,
    now: Time,
    // when each live session was last heard from
    live: map<SessionId, Time>,
    loop: Loop,
    // removed sessions whose close notification is still to be made
    due: multiset<SessionId>,
    udp: U.Table,
    // every grant the host's handler made, oldest first
    grants: seq<(SessionId, Port, RequestId)>)

  const INITIAL := State(map[], map[], map[], map[], {}, {}, 0, map[], Idle, multiset{}, U.EMPTY, [])

  datatype Action =
    | Begin(call: CallId, sid: SessionId, port: Port, rid: RequestId)
    | Send(call: CallId)
    | Transmit(sid: SessionId, lost: bool)
    | Advance(delta: nat)
    // a Hello, or anything else from a live session
    | Hear(sid: SessionId)
    // a Goodbye, or the loss of the session's key
    | Forget(sid: SessionId)
    | Expire(sid: SessionId)
    | Notify(sid: SessionId)
    | TrackRequest(request: Message)
    | OpenPort(forwarding: bool, ready: bool, listenOk: bool)
    | Receive(sid: SessionId, response: Message)
    | Put(sid: SessionId)
    | Take(call: CallId)
    | Abort(call: CallId, why: Failure)
    | Leave(call: CallId)
    | Close(sid: SessionId)

  function Out(s: State, sid: SessionId): seq<Message> {
    if sid in s.out then s.out[sid] else []
  }

  /** `rid` was never drawn before: request IDs are fresh UUIDs. Port 0 is
      refused before anything is registered. */
  ghost predicate Enabled(s: State, a: Action) {
    match a
    case Begin(c, _, port, rid) =>
      c !in s.calls && port != 0 && rid != "" && forall d :: d in s.calls ==> s.calls[d].rid != rid
    case Send(c) => c in s.calls && s.calls[c].phase.Sending? && |Out(s, s.calls[c].sid)| < 8
    case Transmit(sid, _) => Out(s, sid) != []
    case Advance(_) => true
    case Hear(sid) => s.loop.Idle? && sid != ""
    case Forget(_) => s.loop.Idle?
    case Expire(sid) => sid in s.live && s.live[sid] + INACTIVE_TIMEOUT <= s.now
    case Notify(sid) => sid in s.due
    case TrackRequest(request) => s.loop.Idle? && request in s.network && request.Request?
    case OpenPort(_, _, _) => s.loop.Opening? && s.loop.request.Request?
    case Receive(sid, response) => response in s.network && response.Response? && sid !in s.lookups
    case Put(sid) => sid in s.lookups && s.lookups[sid].call in s.calls
    case Take(c) => c in s.calls && s.calls[c].phase.Waiting? && s.calls[c].slot.Some?
    case Abort(c, why) =>
      && c in s.calls && (s.calls[c].phase.Sending? || s.calls[c].phase.Waiting?)
      && (why.Cancelled? || (why.OverlayClosed? && s.calls[c].sid in s.closed))
    case Leave(c) => c in s.calls && s.calls[c].phase.Leaving?
    case Close(_) => true
  }

  function Answer(error: Option<UdpError>): Option<Failure> {
    if error.Some? then Some(Refused(error.value)) else None
  }

  /** The first step of the host's handling: only a live session gets an answer. */
  function TrackStep(s: State, request: Message): State
    requires request.Request?
  {
    var (sid, rid, port) := (request.sid, request.rid, request.port);
    if sid !in s.live then s
    else
      var t := s.(live := s.live[sid := s.now]);
      if rid == "" then t.(network := s.network + {Response(sid, rid, port, Some(RequestIdMissing))})
      else if port == 0 then t.(network := s.network + {Response(sid, rid, port, Some(PortZero))})
      else t.(loop := Opening(request, s.now))
  }

  /** The second step asks the lease owner, whatever became of the session. */
  function OpenStep(s: State, request: Message, forwarding: bool, ready: bool, listenOk: bool): State
    requires request.Request?
  {
    var (sid, rid, port) := (request.sid, request.rid, request.port);
    var (udp, outcome) := U.Open(s.udp, sid, port, forwarding, ready, listenOk);
    s.(network := s.network + {Response(sid, rid, port, UdpAnswer(outcome))}, udp := udp, loop := Idle,
       grants := if outcome == U.Granted then s.grants + [(sid, port, rid)] else s.grants)
  }

  function Removed(s: State, sid: SessionId): State {
    s.(live := s.live - {sid}, due := s.due + multiset{sid})
  }

  /** The client drops what belongs to another session or to no waiting request. */
  function ReceiveStep(s: State, sid: SessionId, response: Message): State
    requires response.Response?
  {
    if response.sid != "" && response.sid != sid then s
    else if response.rid == "" then s
    else if (sid, response.rid) !in s.requests then s
    else s.(lookups := s.lookups[sid := Lookup(s.requests[(sid, response.rid)], response.error)])
  }

  ghost function Next(s: State, a: Action): State
    requires Enabled(s, a)
  {
    match a
    case Begin(c, sid, port, rid) =>
      s.(calls := s.calls[c := Call(sid, port, rid, Sending, None)], requests := s.requests[(sid, rid) := c])
    case Send(c) =>
      var call := s.calls[c];
      s.(calls := s.calls[c := call.(phase := Waiting)],
         out := s.out[call.sid := Out(s, call.sid) + [Request(call.sid, call.rid, call.port)]])
    case Transmit(sid, lost) =>
      s.(out := s.out[sid := Out(s, sid)[1..]], network := if lost then s.network else s.network + {Out(s, sid)[0]})
    case Advance(delta) => s.(now := s.now + delta)
    case Hear(sid) => s.(live := s.live[sid := s.now])
    case Forget(sid) => Removed(s, sid)
    case Expire(sid) => Removed(s, sid)
    case Notify(sid) => s.(due := s.due - multiset{sid}, udp := U.CloseSession(s.udp, sid))
    case TrackRequest(request) => TrackStep(s, request)
    case OpenPort(forwarding, ready, listenOk) => OpenStep(s, s.loop.request, forwarding, ready, listenOk)
    case Receive(sid, response) => ReceiveStep(s, sid, response)
    case Put(sid) =>
      var l := s.lookups[sid];
      var call := s.calls[l.call];
      s.(lookups := s.lookups - {sid},
         calls := s.calls[l.call := call.(slot := if call.slot.Some? then call.slot else Some(l.error))])
    case Take(c) =>
      var call := s.calls[c];
      s.(calls := s.calls[c := call.(phase := Leaving(Answer(call.slot.value)), slot := None)])
    case Abort(c, why) => s.(calls := s.calls[c := s.calls[c].(phase := Leaving(Some(why)))])
    case Leave(c) =>
      var call := s.calls[c];
      s.(calls := s.calls[c := call.(phase := Returned(call.phase.failure))], requests := s.requests - {(call.sid, call.rid)})
    case Close(sid) => s.(closed := s.closed + {sid})
  }

  ghost predicate InFlight(call: Call) {
    !call.phase.Returned?
  }

  /** The request table holds exactly the calls in flight, each under its own
      request ID. */
  ghost predicate TableExact(s: State) {
    && (forall c, d :: c in s.calls && d in s.calls && s.calls[c].rid == s.calls[d].rid ==> c == d)
    && (forall c :: c in s.calls && InFlight(s.calls[c]) ==>
          (s.calls[c].sid, s.calls[c].rid) in s.requests && s.requests[(s.calls[c].sid, s.calls[c].rid)] == c)
    && (forall k :: k in s.requests ==>
          var c := s.requests[k];
          c in s.calls && InFlight(s.calls[c]) && k == (s.calls[c].sid, s.calls[c].rid))
  }

  /** Some call made this request. */
  ghost predicate Genuine(s: State, m: Message) {
    exists c :: c in s.calls && s.calls[c].sid == m.sid && s.calls[c].rid == m.rid && s.calls[c].port == m.port
  }

  /** Everything in the network was sent by a call or answers one, and a positive
      answer follows a grant. The host works for a request that was sent. */
  ghost predicate NetworkHonest(s: State) {
    && (s.loop.Opening? ==> s.loop.request in s.network && s.loop.request.Request?)
    && (forall m :: m in s.network ==> Genuine(s, m))
    && (forall sid, m :: m in Out(s, sid) ==> m.Request? && Genuine(s, m))
    && (forall m :: m in s.network && m.Response? && m.error.None? ==> (m.sid, m.port, m.rid) in s.grants)
  }

  /** The host answered this call's own request with `error`. */
  ghost predicate Answered(s: State, call: Call, error: Option<UdpError>) {
    Response(call.sid, call.rid, call.port, error) in s.network
  }

  ghost predicate LookupHonest(s: State, sid: SessionId) {
    sid in s.lookups ==>
      var l := s.lookups[sid];
      l.call in s.calls && s.calls[l.call].sid == sid && Answered(s, s.calls[l.call], l.error)
  }

  /** What a call reports, unless it gave up, is an answer. */
  ghost predicate Reports(s: State, call: Call, failure: Option<Failure>) {
    && (failure.None? ==> Answered(s, call, None))
    && (failure.Some? && failure.value.Refused? ==> Answered(s, call, Some(failure.value.error)))
  }

  ghost predicate CallHonest(s: State, c: CallId) {
    c in s.calls ==>
      var call := s.calls[c];
      && (call.slot.Some? ==> Answered(s, call, call.slot.value))
      && (call.phase.Leaving? || call.phase.Returned? ==> Reports(s, call, call.phase.failure))
  }

  /** Every result, wherever it is on its way to a caller, is the host's answer to
      that caller's own request. */
  ghost predicate ResultsHonest(s: State) {
    (forall sid :: LookupHonest(s, sid)) && (forall c :: CallHonest(s, c))
  }

  ghost predicate Invariant(s: State) {
    TableExact(s) && NetworkHonest(s) && ResultsHonest(s)
  }

  ghost predicate SameFlights(s: State, t: State) {
    && t.requests == s.requests && t.calls.Keys == s.calls.Keys
    && forall c :: c in s.calls ==>
         && t.calls[c].sid == s.calls[c].sid && t.calls[c].rid == s.calls[c].rid
         && (InFlight(t.calls[c]) <==> InFlight(s.calls[c]))
  }

  ghost predicate OnHost(a: Action) {
    a.Advance? || a.Hear? || a.Forget? || a.Expire? || a.Notify? || a.TrackRequest? || a.OpenPort?
  }

  /** The host touches nothing of the clients', and takes back no answer or grant. */
  lemma HostFootprint(s: State, a: Action)
    requires Enabled(s, a) && OnHost(a)
    ensures var t := Next(s, a);
            && t == s.(now := t.now, live := t.live, loop := t.loop, due := t.due, udp := t.udp, network := t.network, grants := t.grants)
            && s.network <= t.network && s.grants <= t.grants
  {
    hide U.Open, U.CloseSession;
  }

  lemma FlightsFrame(s: State, a: Action)
    requires Enabled(s, a) && !a.Begin? && !a.Leave?
    ensures SameFlights(s, Next(s, a))
  {
    if OnHost(a) {
      HostFootprint(s, a);
      hide Next, Enabled;
    }
  }

  lemma TableExactByBegin(s: State, a: Action)
    requires TableExact(s) && Enabled(s, a) && a.Begin?
    ensures TableExact(Next(s, a))
  {
  }

  lemma TableExactByLeave(s: State, a: Action)
    requires TableExact(s) && Enabled(s, a) && a.Leave?
    ensures TableExact(Next(s, a))
  {
    var call := s.calls[a.call];
    assert Next(s, a).calls == s.calls[a.call := call.(phase := Returned(call.phase.failure))];
    assert Next(s, a).requests == s.requests - {(call.sid, call.rid)};
    hide Next, Enabled;
  }

  lemma TableExactKept(s: State, a: Action)
    requires TableExact(s) && Enabled(s, a)
    ensures TableExact(Next(s, a))
  {
    if a.Begin? {
      TableExactByBegin(s, a);
    } else if a.Leave? {
      TableExactByLeave(s, a);
    } else {
      FlightsFrame(s, a);
      hide Next, Enabled, InFlight;
    }
  }

  /** Calls keep who they are for and what they asked; answers and grants stay. */
  ghost predicate CallsPersist(s: State, t: State) {
    && (forall c :: c in s.calls ==>
          c in t.calls && t.calls[c].sid == s.calls[c].sid && t.calls[c].rid == s.calls[c].rid && t.calls[c].port == s.calls[c].port)
    && |s.grants| <= |t.grants| && s.grants == t.grants[..|s.grants|]
    && s.network <= t.network
  }

  lemma CallsPersistStep(s: State, a: Action)
    requires Enabled(s, a)
    ensures CallsPersist(s, Next(s, a))
  {
    if OnHost(a) {
      HostFootprint(s, a);
      hide Next, Enabled;
    }
  }

  lemma GenuinePersists(s: State, t: State, m: Message)
    requires CallsPersist(s, t) && Genuine(s, m)
    ensures Genuine(t, m)
  {
    var c :| c in s.calls && s.calls[c].sid == m.sid && s.calls[c].rid == m.rid && s.calls[c].port == m.port;
    assert c in t.calls;
  }

  lemma GrantPersists(s: State, t: State, g: (SessionId, Port, RequestId))
    requires CallsPersist(s, t) && g in s.grants
    ensures g in t.grants
  {
    var i :| 0 <= i < |s.grants| && s.grants[i] == g;
    assert t.grants[i] == g;
  }

  lemma AnswerGenuine(s: State, a: Action, m: Message)
    requires NetworkHonest(s) && Enabled(s, a) && (a.OpenPort? || a.TrackRequest?) && m in Next(s, a).network && m !in s.network
    ensures Genuine(Next(s, a), m)
  {
    hide U.Open, U.CloseSession;
    CallsPersistStep(s, a);
    var request := if a.OpenPort? then s.loop.request else a.request;
    assert m.sid == request.sid && m.rid == request.rid && m.port == request.port;
    GenuinePersists(s, Next(s, a), request);
  }

  lemma TransmittedGenuine(s: State, a: Action, m: Message)
    requires NetworkHonest(s) && Enabled(s, a) && a.Transmit?
    requires (m in Next(s, a).network && m !in s.network) || exists sid :: m in Out(Next(s, a), sid) && m !in Out(s, sid)
    ensures Genuine(Next(s, a), m)
  {
    CallsPersistStep(s, a);
    assert Out(s, a.sid)[0] in Out(s, a.sid);
    GenuinePersists(s, Next(s, a), m);
  }

  lemma SentGenuine(s: State, a: Action, m: Message)
    requires Enabled(s, a) && a.Send?
    requires (m in Next(s, a).network && m !in s.network) || exists sid :: m in Out(Next(s, a), sid) && m !in Out(s, sid)
    ensures Genuine(Next(s, a), m)
  {
    var call := s.calls[a.call];
    assert m == Request(call.sid, call.rid, call.port);
    assert a.call in Next(s, a).calls;
  }

  lemma NewMessageGenuine(s: State, a: Action, m: Message)
    requires NetworkHonest(s) && Enabled(s, a)
    requires (m in Next(s, a).network && m !in s.network) || exists sid :: m in Out(Next(s, a), sid) && m !in Out(s, sid)
    ensures Genuine(Next(s, a), m)
  {
    hide U.Open, U.CloseSession;
    var t := Next(s, a);
    CallsPersistStep(s, a);
    match a
    case Send(_) => SentGenuine(s, a, m);
    case Transmit(_, _) => TransmittedGenuine(s, a, m);
    case TrackRequest(_) => AnswerGenuine(s, a, m);
    case OpenPort(_, _, _) => AnswerGenuine(s, a, m);
    case _ =>
  }

  lemma LoopHonest(s: State, a: Action)
    requires NetworkHonest(s) && Enabled(s, a)
    ensures var t := Next(s, a); t.loop.Opening? ==> t.loop.request in t.network && t.loop.request.Request?
  {
    hide Genuine;
    if OnHost(a) {
      hide U.Open, U.CloseSession;
    } else {
      CallsPersistStep(s, a);
      assert Next(s, a).loop == s.loop;
      hide Next, Enabled;
    }
  }

  lemma NetworkHonestKept(s: State, a: Action)
    requires Invariant(s) && Enabled(s, a)
    ensures NetworkHonest(Next(s, a))
  {
    var t := Next(s, a);
    CallsPersistStep(s, a);
    OutgoingRequests(s, a);
    LoopHonest(s, a);
    AnswersFollowGrants(s, a);
    hide Next, Enabled, TableExact, ResultsHonest, CallsPersist, Out, Genuine;
    forall m | m in t.network ensures Genuine(t, m) {
      if m in s.network { GenuinePersists(s, t, m); } else { NewMessageGenuine(s, a, m); }
    }
    forall sid, m | m in Out(t, sid) ensures m.Request? && Genuine(t, m) {
      if m in Out(s, sid) { GenuinePersists(s, t, m); } else { NewMessageGenuine(s, a, m); }
    }
  }

  lemma OutgoingRequests(s: State, a: Action)
    requires Invariant(s) && Enabled(s, a)
    ensures forall sid, m :: m in Out(Next(s, a), sid) ==> m.Request?
  {
    hide U.Open, U.CloseSession, TableExact, ResultsHonest, Genuine;
    forall sid, m | m in Out(Next(s, a), sid) ensures m.Request? {
      if m !in Out(s, sid) {
        assert a.Send? && m == Request(s.calls[a.call].sid, s.calls[a.call].rid, s.calls[a.call].port);
      }
    }
  }

  lemma HeadIsRequest(s: State, sid: SessionId)
    requires NetworkHonest(s) && Out(s, sid) != []
    ensures Out(s, sid)[0].Request?
  {
    assert Out(s, sid)[0] in Out(s, sid);
  }

  lemma AnswersFollowGrants(s: State, a: Action)
    requires Invariant(s) && Enabled(s, a)
    ensures forall m :: m in Next(s, a).network && m.Response? && m.error.None? ==> (m.sid, m.port, m.rid) in Next(s, a).grants
  {
    CallsPersistStep(s, a);
    var t := Next(s, a);
    forall m | m in t.network && m.Response? && m.error.None? ensures (m.sid, m.port, m.rid) in t.grants {
      if m in s.network {
        GrantPersists(s, t, (m.sid, m.port, m.rid));
      } else {
        NewAnswerGranted(s, a, m);
      }
    }
  }

  lemma NewAnswerGranted(s: State, a: Action, m: Message)
    requires Invariant(s) && Enabled(s, a) && m in Next(s, a).network && m !in s.network && m.Response? && m.error.None?
    ensures (m.sid, m.port, m.rid) in Next(s, a).grants
  {
    hide U.Open, U.CloseSession, TableExact, ResultsHonest, Genuine;
    match a
    case OpenPort(_, _, _) =>
      var t := Next(s, a);
      assert t.grants[|t.grants| - 1] == (m.sid, m.port, m.rid);
    case Transmit(sid, _) => HeadIsRequest(s, sid);
    case _ =>
  }

  /** The call found under a response's request ID is the one it answers. */
  lemma LookupFindsOwner(s: State, sid: SessionId, m: Message)
    requires TableExact(s) && NetworkHonest(s) && m in s.network && m.Response? && (sid, m.rid) in s.requests
    ensures var c := s.requests[(sid, m.rid)];
            c in s.calls && s.calls[c].sid == sid == m.sid && s.calls[c].rid == m.rid && s.calls[c].port == m.port
  {
    var c := s.requests[(sid, m.rid)];
    assert Genuine(s, m);
    var d :| d in s.calls && s.calls[d].sid == m.sid && s.calls[d].rid == m.rid && s.calls[d].port == m.port;
    assert s.calls[c].rid == s.calls[d].rid;
  }

  lemma LookupHonestByReceive(s: State, a: Action, sid: SessionId)
    requires Invariant(s) && Enabled(s, a) && a.Receive? && a.sid == sid
    ensures LookupHonest(Next(s, a), sid)
  {
    hide U.Open, U.CloseSession;
    assert LookupHonest(s, sid);
    if (sid, a.response.rid) in s.requests {
      LookupFindsOwner(s, sid, a.response);
    }
    hide NetworkHonest, ResultsHonest;
  }

  lemma LookupsFrame(s: State, a: Action, sid: SessionId)
    requires Enabled(s, a) && !(a.Receive? && a.sid == sid)
    ensures var t := Next(s, a); sid in t.lookups ==> sid in s.lookups && t.lookups[sid] == s.lookups[sid]
  {
    if OnHost(a) {
      HostFootprint(s, a);
      hide Next, Enabled;
    }
  }

  lemma LookupHonestKept(s: State, a: Action, sid: SessionId)
    requires Invariant(s) && Enabled(s, a)
    ensures LookupHonest(Next(s, a), sid)
  {
    if a.Receive? && a.sid == sid {
      LookupHonestByReceive(s, a, sid);
    } else {
      var t := Next(s, a);
      CallsPersistStep(s, a);
      assert LookupHonest(s, sid);
      LookupsFrame(s, a, sid);
      hide Next, Enabled, NetworkHonest, TableExact, ResultsHonest;
    }
  }

  lemma CallHonestKept(s: State, a: Action, c: CallId)
    requires ResultsHonest(s) && Enabled(s, a)
    ensures CallHonest(Next(s, a), c)
  {
    CallsPersistStep(s, a);
    assert CallHonest(s, c);
    hide ResultsHonest, LookupHonest;
    if OnHost(a) {
      HostFootprint(s, a);
      hide Next, Enabled;
    } else if a.Put? {
      CallHonestByPut(s, a, c);
      hide Next, Enabled;
    } else if a.Take? {
      CallHonestByTake(s, a, c);
      hide Next, Enabled;
    }
  }

  lemma CallHonestByTake(s: State, a: Action, c: CallId)
    requires CallHonest(s, c) && Enabled(s, a) && a.Take?
    ensures CallHonest(Next(s, a), c)
  {
  }

  lemma CallHonestByPut(s: State, a: Action, c: CallId)
    requires ResultsHonest(s) && Enabled(s, a) && a.Put?
    ensures CallHonest(Next(s, a), c)
  {
    assert CallHonest(s, c);
    assert LookupHonest(s, a.sid);
    hide ResultsHonest;
  }

  lemma ResultsHonestKept(s: State, a: Action)
    requires Invariant(s) && Enabled(s, a)
    ensures ResultsHonest(Next(s, a))
  {
    hide Next, Enabled, LookupHonest, CallHonest, TableExact, NetworkHonest;
    forall sid ensures LookupHonest(Next(s, a), sid) {
      LookupHonestKept(s, a, sid);
    }
    forall c ensures CallHonest(Next(s, a), c) {
      CallHonestKept(s, a, c);
    }
  }

  ghost function Exec(run: seq<Action>): Option<State> {
    if run == [] then Some(INITIAL)
    else
      var before := Exec(run[..|run| - 1]);
      if before.Some? && Enabled(before.value, run[|run| - 1]) then Some(Next(before.value, run[|run| - 1])) else None
  }

  ghost predicate Possible(run: seq<Action>) {
    Exec(run).Some?
  }

  ghost function After(run: seq<Action>): State
    requires Possible(run)
  {
    Exec(run).value
  }

  lemma {:induction false} InvariantHolds(run: seq<Action>)
    requires Possible(run)
    ensures Invariant(After(run))
    decreases |run|
  {
    hide TableExact, NetworkHonest, ResultsHonest, Enabled, Next;
    if run == [] {
      EmptyInvariant();
    } else {
      var (before, a) := (run[..|run| - 1], run[|run| - 1]);
      InvariantHolds(before);
      var s := After(before);
      TableExactKept(s, a);
      NetworkHonestKept(s, a);
      ResultsHonestKept(s, a);
    }
  }

  lemma EmptyInvariant()
    ensures Invariant(INITIAL)
  {
  }

  /** In step `k` of the run the host granted `g`, and the session held the port
      right after. */
  ghost predicate GrantedAt(run: seq<Action>, k: nat, g: (SessionId, Port, RequestId)) {
    && k < |run| && run[k].OpenPort?
    && Possible(run[..k]) && After(run[..k]).loop.Opening? && After(run[..k]).loop.request == Request(g.0, g.2, g.1)
    && Possible(run[..k + 1]) && U.Holds(After(run[..k + 1]).udp, g.0, g.1)
  }

  lemma {:induction false} GrantsHappened(run: seq<Action>, g: (SessionId, Port, RequestId)) returns (k: nat)
    requires Possible(run) && g in After(run).grants
    ensures GrantedAt(run, k, g)
    decreases |run|
  {
    hide Next, Enabled;
    assert run != [];
    var (before, a) := (run[..|run| - 1], run[|run| - 1]);
    var s := After(before);
    assert After(run) == Next(s, a);
    assert run[..|run|] == run;
    if g in s.grants {
      k := GrantsHappened(before, g);
      assert before[..k] == run[..k] && before[..k + 1] == run[..k + 1];
    } else {
      k := |run| - 1;
      NewGrant(s, a, g);
    }
  }

  lemma NewGrant(s: State, a: Action, g: (SessionId, Port, RequestId))
    requires Enabled(s, a) && g in Next(s, a).grants && g !in s.grants
    ensures a.OpenPort? && s.loop.Opening? && s.loop.request == Request(g.0, g.2, g.1) && U.Holds(Next(s, a).udp, g.0, g.1)
  {
    hide U.CloseSession;
    if a.OpenPort? {
      assert g == Next(s, a).grants[|s.grants|];
    }
  }

  /** In step `j` of the run the host tracked the request, from a session live then. */
  ghost predicate TrackedAt(run: seq<Action>, j: nat, request: Message, at: Time) {
    && j < |run| && run[j] == TrackRequest(request) && request.Request?
    && Possible(run[..j]) && request.sid in After(run[..j]).live && After(run[..j]).now == at
  }

  /** A request the host is about to open a port for was tracked before, when its
      session was live. */
  lemma {:induction false} OpeningWasTracked(run: seq<Action>) returns (j: nat)
    requires Possible(run) && After(run).loop.Opening?
    ensures TrackedAt(run, j, After(run).loop.request, After(run).loop.at)
    decreases |run|
  {
    hide Next, Enabled;
    assert run != [];
    var (before, a) := (run[..|run| - 1], run[|run| - 1]);
    var s := After(before);
    assert After(run) == Next(s, a);
    BeganOpening(s, a);
    if s.loop.Opening? {
      j := OpeningWasTracked(before);
      assert before[..j] == run[..j];
    } else {
      j := |run| - 1;
    }
  }

  lemma BeganOpening(s: State, a: Action)
    requires Enabled(s, a) && Next(s, a).loop.Opening?
    ensures s.loop.Opening? ==> Next(s, a).loop == s.loop
    ensures s.loop.Idle? ==> a == TrackRequest(Next(s, a).loop.request) && a.request.Request? && a.request.sid in s.live && Next(s, a).loop.at == s.now
  {
    hide U.Open, U.CloseSession;
  }

  lemma {:induction false} PossiblePrefix(run: seq<Action>, k: nat)
    requires Possible(run) && k <= |run|
    ensures Possible(run[..k])
    ensures k < |run| ==> Enabled(After(run[..k]), run[k]) && Possible(run[..k + 1]) && After(run[..k + 1]) == Next(After(run[..k]), run[k])
    decreases |run|
  {
    hide Next, Enabled;
    if k == |run| {
      assert run[..k] == run;
    } else if k == |run| - 1 {
      assert run[..k + 1] == run;
    } else {
      var shorter := run[..|run| - 1];
      PossiblePrefix(shorter, k);
      assert shorter[..k] == run[..k] && shorter[..k + 1] == run[..k + 1];
    }
  }

  /** The session the host works for is live as last heard from, unless the whole
      inactivity timeout has passed. */
  ghost predicate LoopClocked(s: State) {
    s.loop.Opening? ==>
      var sid := s.loop.request.sid;
      (sid in s.live && s.live[sid] == s.loop.at) || s.loop.at + INACTIVE_TIMEOUT <= s.now
  }

  lemma LoopClockedKept(s: State, a: Action)
    requires LoopClocked(s) && Enabled(s, a)
    ensures LoopClocked(Next(s, a))
  {
    hide U.Open, U.CloseSession;
  }

  lemma {:induction false} LoopClockedHolds(run: seq<Action>)
    requires Possible(run)
    ensures LoopClocked(After(run))
    decreases |run|
  {
    hide LoopClocked, Next, Enabled;
    if run == [] {
      IdleClocked(INITIAL);
    } else {
      LoopClockedHolds(run[..|run| - 1]);
      LoopClockedKept(After(run[..|run| - 1]), run[|run| - 1]);
    }
  }

  lemma IdleClocked(s: State)
    requires s.loop.Idle?
    ensures LoopClocked(s)
  {
  }

  /** A grant made less than the timeout after its request was tracked is for a
      session still live. */
  lemma TimelyGrantIsLive(run: seq<Action>, k: nat, g: (SessionId, Port, RequestId))
    requires GrantedAt(run, k, g) && After(run[..k]).now < After(run[..k]).loop.at + INACTIVE_TIMEOUT
    ensures g.0 in After(run[..k]).live
  {
    hide Exec;
    LoopClockedHolds(run[..k]);
  }

  /** A lease lasts until the owner is notified that its session closed. */
  lemma HoldsKept(s: State, a: Action, sid: SessionId, port: Port)
    requires Enabled(s, a) && U.Holds(s.udp, sid, port) && a != Notify(sid)
    ensures U.Holds(Next(s, a).udp, sid, port)
  {
    if a.Notify? {
      U.CloseSessionReleases(s.udp, a.sid);
    }
    hide U.CloseSession;
  }

  lemma {:induction false} HeldUntilNotified(run: seq<Action>, k: nat, sid: SessionId, port: Port)
    requires Possible(run) && k <= |run| && Possible(run[..k]) && U.Holds(After(run[..k]).udp, sid, port)
    requires forall i :: k <= i < |run| ==> run[i] != Notify(sid)
    ensures U.Holds(After(run).udp, sid, port)
    decreases |run|
  {
    hide Next, Enabled, U.Holds;
    if k == |run| {
      assert run[..k] == run;
    } else {
      var before := run[..|run| - 1];
      assert before[..k] == run[..k];
      HeldUntilNotified(before, k, sid, port);
      HoldsKept(After(before), run[|run| - 1], sid, port);
    }
  }

  lemma NilGranted(s: State, c: CallId)
    requires Invariant(s) && c in s.calls && s.calls[c].phase == Returned(None)
    ensures (s.calls[c].sid, s.calls[c].port, s.calls[c].rid) in s.grants
  {
    assert CallHonest(s, c);
    assert Answered(s, s.calls[c], None);
  }

  /** A call that returns nil was granted: at an earlier step the host opened that
      port for that session, on a request it had tracked while the session was
      live. The session holds the port from then until the owner is notified that
      the session closed. */
  lemma NilMeansGranted(run: seq<Action>, c: CallId) returns (j: nat, k: nat)
    requires Possible(run) && c in After(run).calls && After(run).calls[c].phase == Returned(None)
    ensures var call := After(run).calls[c];
            && GrantedAt(run, k, (call.sid, call.port, call.rid))
            && j < k && TrackedAt(run, j, Request(call.sid, call.rid, call.port), After(run[..k]).loop.at)
            && ((forall i :: k < i < |run| ==> run[i] != Notify(call.sid)) ==> U.Holds(After(run).udp, call.sid, call.port))
  {
    InvariantHolds(run);
    var call := After(run).calls[c];
    NilGranted(After(run), c);
    hide Exec, After, Invariant;
    k := GrantsHappened(run, (call.sid, call.port, call.rid));
    j := OpeningWasTracked(run[..k]);
    assert run[..k][..j] == run[..j];
    if forall i :: k < i < |run| ==> run[i] != Notify(call.sid) {
      HeldUntilNotified(run, k + 1, call.sid, call.port);
    }
  }

  /** How a call ends: its result, once it has one. */
  function Outcome(call: Call): Option<Option<Failure>> {
    match call.phase
    case Leaving(failure) => Some(failure)
    case Returned(failure) => Some(failure)
    case _ => None
  }

  /** A call is given up only by aborting it, for the reason it then returns; an
      outcome once reached is final. */
  lemma OutcomeStep(s: State, a: Action, c: CallId)
    requires Enabled(s, a) && c in s.calls
    ensures c in Next(s, a).calls
    ensures Outcome(s.calls[c]).Some? ==> Outcome(Next(s, a).calls[c]) == Outcome(s.calls[c])
    ensures var outcome := Outcome(Next(s, a).calls[c]);
            outcome.Some? && Outcome(s.calls[c]).None? ==>
              || (exists why :: a == Abort(c, why) && outcome.value == Some(why))
              || (a == Take(c) && s.calls[c].slot.Some?)
    ensures a == Take(c) ==>
              match s.calls[c].slot.value
              case None => Outcome(Next(s, a).calls[c]) == Some(None)
              case Some(error) => Outcome(Next(s, a).calls[c]) == Some(Some(Refused(error)))
  {
    if OnHost(a) {
      HostFootprint(s, a);
      hide Next, Enabled;
    }
  }

  lemma NewCallOpen(s: State, a: Action, c: CallId)
    requires Enabled(s, a) && c !in s.calls && c in Next(s, a).calls
    ensures Outcome(Next(s, a).calls[c]).None?
  {
    if OnHost(a) {
      HostFootprint(s, a);
      hide Next, Enabled;
    }
  }

  /** In step `k` the call took `error` from its result channel. */
  ghost predicate TookAt(run: seq<Action>, k: nat, c: CallId, error: Option<UdpError>) {
    && k < |run| && run[k] == Take(c) && Possible(run[..k])
    && c in After(run[..k]).calls && After(run[..k]).calls[c].slot == Some(error)
  }

  lemma SlotStep(s: State, a: Action, c: CallId)
    requires Enabled(s, a) && c in s.calls && s.calls[c].slot.Some? && a != Take(c)
    ensures c in Next(s, a).calls && Next(s, a).calls[c].slot == s.calls[c].slot
  {
    if OnHost(a) {
      HostFootprint(s, a);
      hide Next, Enabled;
    }
  }

  /** The first answer that reaches a call's channel is the one it can take: later
      ones for the same request are dropped. */
  lemma {:induction false} FirstAnswerStays(run: seq<Action>, k: nat, c: CallId)
    requires Possible(run) && k <= |run| && Possible(run[..k])
    requires c in After(run[..k]).calls && After(run[..k]).calls[c].slot.Some?
    requires forall i :: k <= i < |run| ==> run[i] != Take(c)
    ensures c in After(run).calls && After(run).calls[c].slot == After(run[..k]).calls[c].slot
    decreases |run|
  {
    hide Next, Enabled;
    if k == |run| {
      assert run[..k] == run;
    } else {
      var before := run[..|run| - 1];
      assert before[..k] == run[..k];
      FirstAnswerStays(before, k, c);
      SlotStep(After(before), run[|run| - 1], c);
    }
  }

  /** Closing a client's overlay lets all its pending calls go, and nobody else's. */
  lemma CloseReleasesCalls(s: State, sid: SessionId, c: CallId)
    requires c in s.calls && (s.calls[c].phase.Sending? || s.calls[c].phase.Waiting?)
    ensures var t := Next(s, Close(sid));
            c in t.calls && (Enabled(t, Abort(c, OverlayClosed)) <==> s.calls[c].sid == sid || s.calls[c].sid in s.closed)
  {
  }

  /** A removed session is not live, and once its close is notified holds nothing;
      other sessions keep what they hold. */
  lemma RemovalEndsLeases(s: State, a: Action, sid: SessionId)
    requires Enabled(s, a) && (a == Forget(sid) || a == Expire(sid))
    ensures var t := Next(s, a);
            && sid !in t.live && Enabled(t, Notify(sid))
            && (forall other :: other != sid ==> (other in t.live <==> other in s.live))
            && var u := Next(t, Notify(sid));
            forall x, port: Port :: U.Holds(u.udp, x, port) <==> U.Holds(s.udp, x, port) && x != sid
  {
    U.CloseSessionReleases(s.udp, sid);
    hide U.CloseSession;
  }

  /** What a call returns: the reason it was aborted for, nil for a grant it took
      from its channel, or the error it took. */
  ghost predicate Explained(run: seq<Action>, k: nat, c: CallId, outcome: Option<Failure>) {
    match outcome
    case None => TookAt(run, k, c, None)
    case Some(Refused(error)) => TookAt(run, k, c, Some(error))
    case Some(why) => k < |run| && run[k] == Abort(c, why)
  }

  lemma {:induction false} OutcomeExplained(run: seq<Action>, c: CallId) returns (k: nat)
    requires Possible(run) && c in After(run).calls && Outcome(After(run).calls[c]).Some?
    ensures Explained(run, k, c, Outcome(After(run).calls[c]).value)
    decreases |run|
  {
    hide Next, Enabled, Outcome;
    assert run != [];
    var (before, a) := (run[..|run| - 1], run[|run| - 1]);
    var s := After(before);
    assert After(run) == Next(s, a) && Enabled(s, a);
    if c !in s.calls {
      NewCallOpen(s, a, c);
    } else {
      OutcomeStep(s, a, c);
      if Outcome(s.calls[c]).Some? {
        k := OutcomeExplained(before, c);
        assert before[..k] == run[..k];
      } else {
        k := |run| - 1;
        if a.Abort? {
          AbortNotRefused(s, a);
        }
      }
    }
  }

  lemma AbortNotRefused(s: State, a: Action)
    requires Enabled(s, a) && a.Abort?
    ensures !a.why.Refused?
  {
  }

  /** Every call that has returned either was aborted, and returns that reason, or
      returns what the host answered to its own request: nil for a grant, the
      host's error otherwise. */
  lemma ReturnIsAbortOrAnswer(run: seq<Action>, c: CallId, outcome: Option<Failure>)
    requires Possible(run) && c in After(run).calls && After(run).calls[c].phase == Returned(outcome)
    ensures || (exists why :: outcome == Some(why) && !why.Refused? && Abort(c, why) in run)
            || (outcome == None && Answered(After(run), After(run).calls[c], None))
            || (exists error :: outcome == Some(Refused(error)) && Answered(After(run), After(run).calls[c], Some(error)))
  {
    var k := OutcomeExplained(run, c);
    InvariantHolds(run);
    hide Exec;
    assert CallHonest(After(run), c);
    if outcome.Some? && !outcome.value.Refused? {
      assert run[k] in run;
    }
  }

  /** A call that took a result from its channel returns exactly that: nil, or the
      error taken. Nothing that happens later changes it. */
  lemma {:induction false} TakenIsReturned(run: seq<Action>, k: nat, c: CallId, error: Option<UdpError>)
    requires Possible(run) && TookAt(run, k, c, error)
    ensures c in After(run).calls
    ensures Outcome(After(run).calls[c]) == Some(match error case None => None case Some(e) => Some(Refused(e)))
    decreases |run|
  {
    hide Next, Enabled, Outcome;
    var (before, a) := (run[..|run| - 1], run[|run| - 1]);
    var s := After(before);
    assert After(run) == Next(s, a) && Enabled(s, a);
    if k == |run| - 1 {
      OutcomeStep(s, a, c);
    } else {
      assert before[..k] == run[..k];
      TakenIsReturned(before, k, c, error);
      OutcomeStep(s, a, c);
    }
  }

  /** A call that returns a refusal reports what the host answered to that very
      request. */
  lemma RefusalIsOwnAnswer(run: seq<Action>, c: CallId, error: UdpError)
    requires Possible(run) && c in After(run).calls && After(run).calls[c].phase == Returned(Some(Refused(error)))
    ensures Answered(After(run), After(run).calls[c], Some(error))
  {
    InvariantHolds(run);
    hide Exec;
    assert CallHonest(After(run), c);
  }

  /** A call that was never aborted returns nil or a refusal, as the host answered. */
  lemma NeverAbortedIsAnswered(run: seq<Action>, c: CallId, outcome: Option<Failure>)
    requires Possible(run) && c in After(run).calls && After(run).calls[c].phase == Returned(outcome)
    requires forall why :: Abort(c, why) !in run
    ensures match outcome
            case None => Answered(After(run), After(run).calls[c], None)
            case Some(failure) => failure.Refused? && Answered(After(run), After(run).calls[c], Some(failure.error))
  {
    hide Exec, After, Answered;
    ReturnIsAbortOrAnswer(run, c, outcome);
  }

  /** At every moment the request table is exactly the calls in flight. */
  lemma TableHoldsInFlightCalls(run: seq<Action>, sid: SessionId, rid: RequestId)
    requires Possible(run)
    ensures var s := After(run);
            (sid, rid) in s.requests <==>
            exists c :: c in s.calls && InFlight(s.calls[c]) && s.calls[c].sid == sid && s.calls[c].rid == rid
  {
    InvariantHolds(run);
  }

  // ----- a stalled request -----

  ghost predicate Reachable(s: State) {
    exists run :: Possible(run) && After(run) == s
  }

  lemma Reach(s: State, a: Action)
    requires Reachable(s) && Enabled(s, a)
    ensures Reachable(Next(s, a))
  {
    hide Enabled, Next;
    var run :| Possible(run) && After(run) == s;
    var longer := run + [a];
    assert longer[..|longer| - 1] == run;
    assert Possible(longer) && After(longer) == Next(s, a);
  }

  lemma RequestSent(port: Port) returns (s: State)
    requires port != 0
    ensures Reachable(s)
    ensures s == INITIAL.(live := map["a" := 0], calls := map[0 := Call("a", port, "r", Waiting, None)], requests := map[("a", "r") := 0],
                          out := map["a" := []], network := {Request("a", "r", port)})
  {
    assert Possible([]) && After([]) == INITIAL;
    assert Reachable(INITIAL);
    hide Reachable, Exec;
    s := INITIAL;
    Reach(s, Hear("a")); s := Next(s, Hear("a"));
    Reach(s, Begin(0, "a", port, "r")); s := Next(s, Begin(0, "a", port, "r"));
    Reach(s, Send(0)); s := Next(s, Send(0));
    Reach(s, Transmit("a", false)); s := Next(s, Transmit("a", false));
  }

  lemma SessionGone(s: State, port: Port) returns (t: State)
    requires Reachable(s) && s.now == 0 && s.live == map["a" := 0] && s.loop.Idle? && s.due == multiset{} && s.udp == U.EMPTY
    requires port != 0 && s.network == {Request("a", "r", port)} && s.grants == []
    ensures Reachable(t)
    ensures t == s.(now := INACTIVE_TIMEOUT, live := map[], loop := Opening(Request("a", "r", port), 0))
  {
    hide Reachable;
    var request := Request("a", "r", port);
    t := s;
    Reach(t, TrackRequest(request)); t := Next(t, TrackRequest(request));
    Reach(t, Advance(INACTIVE_TIMEOUT)); t := Next(t, Advance(INACTIVE_TIMEOUT));
    Reach(t, Expire("a")); t := Next(t, Expire("a"));
    U.ReleasedNone(U.EMPTY, "a");
    assert U.EMPTY.ports.Keys == {};
    Reach(t, Notify("a")); t := Next(t, Notify("a"));
  }

  /** Whatever the host answered to a waiting call's request can reach the caller:
      if it arrives next, the call returns nil for a grant and that error otherwise. */
  lemma AnswerReaches(s: State, c: CallId, error: Option<UdpError>) returns (t: State)
    requires Reachable(s) && c in s.calls && s.calls[c].phase == Waiting && s.calls[c].slot == None
    requires s.calls[c].sid !in s.lookups && s.calls[c].rid != "" && TableExact(s)
    requires Answered(s, s.calls[c], error)
    ensures Reachable(t) && c in t.calls && t.live == s.live && t.due == s.due && t.udp == s.udp
    ensures t.calls[c].phase == match error case None => Returned(None) case Some(e) => Returned(Some(Refused(e)))
  {
    hide Reachable;
    var call := s.calls[c];
    var answer := Response(call.sid, call.rid, call.port, error);
    Reach(s, Receive(call.sid, answer));
    var r := Next(s, Receive(call.sid, answer));
    assert r == s.(lookups := s.lookups[call.sid := Lookup(c, error)]);
    hide TableExact, Answered;
    t := LookupReaches(r, c, error);
  }

  lemma LookupReaches(s: State, c: CallId, error: Option<UdpError>) returns (t: State)
    requires Reachable(s) && c in s.calls && s.calls[c].phase == Waiting && s.calls[c].slot == None
    requires s.calls[c].sid in s.lookups && s.lookups[s.calls[c].sid] == Lookup(c, error)
    ensures Reachable(t) && c in t.calls && t.live == s.live && t.due == s.due && t.udp == s.udp
    ensures t.calls[c].phase == match error case None => Returned(None) case Some(e) => Returned(Some(Refused(e)))
  {
    hide Reachable;
    var sid := s.calls[c].sid;
    t := s;
    Reach(t, Put(sid)); t := Next(t, Put(sid));
    assert t.calls[c] == s.calls[c].(slot := Some(error));
    Reach(t, Take(c)); t := Next(t, Take(c));
    assert t.calls[c].phase.Leaving?;
    Reach(t, Leave(c)); t := Next(t, Leave(c));
  }

  lemma FirstCallExact(s: State, port: Port)
    requires s.calls == map[0 := Call("a", port, "r", Waiting, None)] && s.requests == map[("a", "r") := 0]
    ensures TableExact(s)
  {
  }

  /** A live session asks a host without forwarding: its call returns the host's
      refusal. */
  lemma RefusalReturned(port: Port) returns (t: State)
    requires port != 0
    ensures Reachable(t) && 0 in t.calls && t.calls[0].phase == Returned(Some(Refused(Failed(U.Disabled))))
    ensures t.live.Keys == {"a"}
  {
    hide Reachable;
    t := RequestSent(port);
    var request := Request("a", "r", port);
    Reach(t, TrackRequest(request)); t := Next(t, TrackRequest(request));
    Reach(t, OpenPort(false, true, true)); t := Next(t, OpenPort(false, true, true));
    FirstCallExact(t, port);
    assert t.live.Keys == {"a"};
    hide Next, Enabled, TableExact;
    t := AnswerReaches(t, 0, Some(Failed(U.Disabled)));
  }

  /** A request that stalls on the host for the whole timeout is granted after all:
      its call returns nil for a session that is gone, whose lease nobody will end. */
  lemma StalledRequestGranted(port: Port) returns (t: State)
    requires port != 0
    ensures Reachable(t) && 0 in t.calls && t.calls[0].phase == Returned(None)
    ensures t.live == map[] && t.due == multiset{} && U.Holds(t.udp, "a", port)
  {
    hide Reachable;
    t := RequestSent(port);
    t := SessionGone(t, port);
    Reach(t, OpenPort(true, true, true)); t := Next(t, OpenPort(true, true, true));
    FirstCallExact(t, port);
    hide Next, Enabled, TableExact;
    t := AnswerReaches(t, 0, None);
  }
}
