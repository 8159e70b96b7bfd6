/** The host as a step system. Four goroutines share the peer table under one
    mutex and two bounded channels: the receive loop, the reaper, the node
    fan-out and the control server's consumer. The control handlers that store
    the engine's own node, and the stream to the engine, run beside them.

    A step is what happens between two points where another goroutine can get
    in: taking a lock, sending on or receiving from a channel, an atomic load or
    store. `Machine` is the running program. `History` is bookkeeping that only
    the theorems read: no guard and no machine step depends on it. */
module Pipeline {
  import opened Wrappers
  import opened Overlay
  import opened Sessions
  import opened PeerStores
  import opened Streaming
  import U = UdpLeases

  /** Slots of each of the two channels. */
  const CAPACITY := 8

  datatype Owner = ReceiveLoop | Reaper

  /** The mutex, held across channel sends: the sessions still to be removed,
      the removal being sent, and the removals sent so far. */
  datatype Sweep = Sweep(owner: Owner, victims: set<SessionId>, sending: Option<SessionId>, removed: seq<SessionId>)

  datatype Receiver =
    | RecvIdle
    | RecvStopped
    | RecvGot(sid: SessionId, source: DerpKey, body: Body, at: Time)
    | RecvGone(source: DerpKey)
    | RecvSweep
    | RecvNotify(ids: seq<SessionId>)
    | RecvEnqueue(sid: SessionId, node: Node, at: Time)
    | RecvLoad(sid: SessionId, greeting: bool)
    | RecvOpen(sid: SessionId, requestId: string, port: Port, at: Time)
    | RecvReply(sid: SessionId, reply: Reply)

  datatype ReaperState = ReapIdle | ReapTick(tick: Time) | ReapSweep | ReapNotify(ids: seq<SessionId>)

  datatype FanOut = FanIdle | FanStore(node: Node) | FanSnapshot(node: Node) | FanSend(node: Node, targets: map<SessionId, DerpKey>)

  datatype Consumer = ConsIdle | ConsApply(update: PeerUpdate) | ConsSignal | ConsLoad | ConsSend(node: Node)

  datatype Stream = StreamOff | StreamIdle(known: set<int>) | StreamTook(known: set<int>) | StreamWrite(res: MapResponse, known: set<int>)

  datatype Machine = Machine(
    now: Time,
    // overlay endpoint
    peers: PeerTable, lock: Option<Sweep>, inbox: seq<PeerUpdate>, outbox: seq<Node>, lastNode: Option<Node>,
    recv: Receiver, reaper: ReaperState, fan: FanOut, udp: U.Table,
    // control server
    selfNode: Option<Node>, owed: nat, nodeSignal: bool, store: Store, peerSignal: bool, cons: Consumer,
    stream: Stream, engine: set<int>)

  datatype History = History(
    // the last node each live session announced since its current Hello
    announced: map<SessionId, Node>,
    // sessions whose node was enqueued after their removal and not cleared since
    stale: set<SessionId>,
    // live sessions for which a send of the node now in `lastNode` was made since
    // it was stored, even if that send failed; fan-out targets
    // still in the life they were snapshotted in
    told: set<SessionId>, fanLive: set<SessionId>,
    // ports opened by live sessions in their current life; those of them taken
    // away by a late notification; leases opened for a session already gone;
    // leases whose close notification is still due
    granted: set<(SessionId, Port)>, robbed: set<(SessionId, Port)>,
    leaked: set<(SessionId, Port)>, closing: set<(SessionId, Port)>,
    // sessions that were ever removed
    departed: set<SessionId>,
    // the store when the stream last took a snapshot
    snap: Store)

  datatype State = State(m: Machine, h: History)

  datatype Action =
    | Advance(delta: nat)
    // the receive loop
    | Deliver(sid: SessionId, source: DerpKey, body: Body)
    | PeerGone(source: DerpKey)
    | RecvFail
    | TrackMessage
    | LockGone
    | EnqueueNode
    | LoadLastNode
    | OpenPort(forwarding: bool, ready: bool, listenOk: bool)
    | SendReply(sent: bool)
    | NotifyRecv
    // whoever holds the mutex
    | RemoveVictim(sid: SessionId)
    | SendRemoval
    | EndSweep
    // the reaper
    | Tick(tick: Time)
    | LockExpiry
    | NotifyReap
    // the fan-out
    | TakeOut
    | StoreLast
    | SnapshotPeers
    | SendNode(sid: SessionId)
    | EndFanOut
    // the consumer
    | TakeUpdate
    | ApplyTaken
    | RaisePeerSignal
    | TakeNodeSignal
    | LoadSelf
    | SendOut
    // the control handlers
    | StoreSelf(node: Node)
    | NotifySelf
    // the stream
    | OpenStream(peers: seq<Node>)
    | TakePeerSignal
    | SnapshotStore(peers: seq<Node>, res: MapResponse)
    | FinishWrite(written: bool)
    | StreamKeepAlive(written: bool)
    | StopStream

  const INITIAL := State(
    Machine(0, map[], None, [], [], None, RecvIdle, ReapIdle, FanIdle, U.EMPTY,
            None, 0, false, map[], false, ConsIdle, StreamOff, {}),
    History(map[], {}, {}, {}, {}, {}, {}, {}, {}, map[]))

  ghost predicate Enabled(m: Machine, a: Action) {
    match a
    case Advance(_) => true
    case Deliver(_, _, _) => m.recv.RecvIdle?
    case PeerGone(_) => m.recv.RecvIdle?
    case RecvFail => m.recv.RecvIdle?
    case TrackMessage => m.recv.RecvGot? && m.lock.None?
    case LockGone => m.recv.RecvGone? && m.lock.None?
    case EnqueueNode => m.recv.RecvEnqueue? && |m.inbox| < CAPACITY
    case LoadLastNode => m.recv.RecvLoad?
    case OpenPort(_, _, _) => m.recv.RecvOpen?
    case SendReply(_) => m.recv.RecvReply?
    case NotifyRecv => m.recv.RecvNotify? && m.recv.ids != []
    case RemoveVictim(sid) => m.lock.Some? && m.lock.value.sending.None? && sid in m.lock.value.victims
    case SendRemoval => m.lock.Some? && m.lock.value.sending.Some? && |m.inbox| < CAPACITY
    case EndSweep => m.lock.Some? && m.lock.value.sending.None? && m.lock.value.victims == {}
    case Tick(tick) => m.reaper.ReapIdle? && tick <= m.now
    case LockExpiry => m.reaper.ReapTick? && m.lock.None?
    case NotifyReap => m.reaper.ReapNotify? && m.reaper.ids != []
    case TakeOut => m.fan.FanIdle? && m.outbox != []
    case StoreLast => m.fan.FanStore?
    case SnapshotPeers => m.fan.FanSnapshot? && m.lock.None?
    case SendNode(sid) => m.fan.FanSend? && sid in m.fan.targets
    case EndFanOut => m.fan.FanSend? && m.fan.targets == map[]
    case TakeUpdate => m.cons.ConsIdle? && m.inbox != []
    case ApplyTaken => m.cons.ConsApply?
    case RaisePeerSignal => m.cons.ConsSignal?
    case TakeNodeSignal => m.cons.ConsIdle? && m.nodeSignal
    case LoadSelf => m.cons.ConsLoad?
    case SendOut => m.cons.ConsSend? && |m.outbox| < CAPACITY
    case StoreSelf(_) => true
    case NotifySelf => m.owed > 0
    case OpenStream(peers) => m.stream.StreamOff? && IsSnapshot(m.store, peers)
    case TakePeerSignal => m.stream.StreamIdle? && m.peerSignal
    case SnapshotStore(peers, res) => m.stream.StreamTook? && IsSnapshot(m.store, peers) && IsUpdate(res, m.stream.known, peers)
    case FinishWrite(_) => m.stream.StreamWrite?
    case StreamKeepAlive(_) => m.stream.StreamIdle?
    case StopStream => m.stream.StreamIdle?
  }

  /** The node a reply carries. */
  function Carried(reply: Reply): Option<Node> {
    match reply
    case HelloReply(node) => node
    case NodeReply(node) => node
    case _ => None
  }

  function AfterTrack(sid: SessionId, body: Body, at: Time): Receiver {
    match body
    case Ping => RecvReply(sid, PongReply)
    case Pong => RecvIdle
    case Hello => RecvLoad(sid, true)
    case NodeUpdate(node) => RecvEnqueue(sid, node, at)
    case OpenUdp(rid, port) =>
      if rid == "" then RecvReply(sid, UdpReply(rid, port, Some(RequestIdMissing)))
      else if port == 0 then RecvReply(sid, UdpReply(rid, port, Some(PortZero)))
      else RecvOpen(sid, rid, port, at)
    case _ => RecvIdle
  }

  /** A Goodbye that finds its session keeps the mutex to send the removal. */
  function TrackStep(m: Machine): Machine
    requires m.recv.RecvGot?
  {
    var sid := m.recv.sid;
    var (peers, verdict) := Track(m.peers, sid, m.recv.source, m.recv.body, m.recv.at);
    match verdict
    case Rejected(_) => m.(recv := RecvIdle)
    case Departed =>
      if sid in m.peers then m.(lock := Some(Sweep(ReceiveLoop, {sid}, None, [])), recv := RecvSweep)
      else m.(recv := RecvNotify([sid]))
    case Accepted => m.(peers := peers, recv := AfterTrack(sid, m.recv.body, m.recv.at))
  }

  function EndSweepStep(m: Machine): Machine
    requires m.lock.Some?
  {
    var ids := m.lock.value.removed;
    match m.lock.value.owner
    case ReceiveLoop => m.(lock := None, recv := if ids == [] then RecvIdle else RecvNotify(ids))
    case Reaper => m.(lock := None, reaper := if ids == [] then ReapIdle else ReapNotify(ids))
  }

  ghost function Next(m: Machine, a: Action): Machine
    requires Enabled(m, a)
  {
    match a
    case Advance(delta) => m.(now := m.now + delta)
    case Deliver(sid, source, body) => m.(recv := RecvGot(sid, source, body, m.now))
    case PeerGone(source) => m.(recv := RecvGone(source))
    case RecvFail => m.(recv := RecvStopped)
    case TrackMessage => TrackStep(m)
    case LockGone =>
      m.(lock := Some(Sweep(ReceiveLoop, FromSource(m.peers, m.recv.source), None, [])), recv := RecvSweep)
    case EnqueueNode =>
      m.(inbox := m.inbox + [PeerUpdate(m.recv.sid, Some(m.recv.node))], recv := RecvLoad(m.recv.sid, false))
    case LoadLastNode => 
      m.(recv := RecvReply(m.recv.sid, if m.recv.greeting then HelloReply(m.lastNode) else NodeReply(m.lastNode)))
    case OpenPort(forwarding, ready, listenOk) =>
      var (udp, outcome) := U.Open(m.udp, m.recv.sid, m.recv.port, forwarding, ready, listenOk);
      m.(udp := udp, recv := RecvReply(m.recv.sid, UdpReply(m.recv.requestId, m.recv.port, UdpAnswer(outcome))))
    case SendReply(sent) => m.(recv := if sent then RecvIdle else RecvStopped)
    case NotifyRecv =>
      m.(udp := U.CloseSession(m.udp, m.recv.ids[0]), recv := if |m.recv.ids| == 1 then RecvIdle else RecvNotify(m.recv.ids[1..]))
    case RemoveVictim(sid) =>
      m.(peers := m.peers - {sid},
         lock := Some(m.lock.value.(victims := m.lock.value.victims - {sid}, sending := Some(sid))))
    case SendRemoval =>
      var sid := m.lock.value.sending.value;
      m.(inbox := m.inbox + [PeerUpdate(sid, None)],
         lock := Some(m.lock.value.(sending := None, removed := m.lock.value.removed + [sid])))
    case EndSweep => EndSweepStep(m)
    case Tick(tick) => m.(reaper := ReapTick(tick))
    case LockExpiry =>
      m.(lock := Some(Sweep(Reaper, Silent(m.peers, m.reaper.tick), None, [])), reaper := ReapSweep)
    case NotifyReap =>
      m.(udp := U.CloseSession(m.udp, m.reaper.ids[0]), reaper := if |m.reaper.ids| == 1 then ReapIdle else ReapNotify(m.reaper.ids[1..]))
    case TakeOut => m.(outbox := m.outbox[1..], fan := FanStore(m.outbox[0]))
    case StoreLast => m.(lastNode := Some(m.fan.node), fan := FanSnapshot(m.fan.node))
    case SnapshotPeers => m.(fan := FanSend(m.fan.node, map sid | sid in m.peers :: m.peers[sid].source))
    case SendNode(sid) => m.(fan := FanSend(m.fan.node, m.fan.targets - {sid}))
    case EndFanOut => m.(fan := FanIdle)
    case TakeUpdate => m.(inbox := m.inbox[1..], cons := if m.inbox[0].id == "" then ConsIdle else ConsApply(m.inbox[0]))
    case ApplyTaken => m.(store := ApplyUpdate(m.store, m.cons.update), cons := ConsSignal)
    case RaisePeerSignal => m.(peerSignal := true, cons := ConsIdle)
    case TakeNodeSignal => m.(nodeSignal := false, cons := ConsLoad)
    case LoadSelf => m.(cons := if m.selfNode.Some? then ConsSend(m.selfNode.value) else ConsIdle)
    case SendOut => m.(outbox := m.outbox + [m.cons.node], cons := ConsIdle)
    case StoreSelf(node) => m.(selfNode := Some(node), owed := m.owed + 1)
    case NotifySelf => m.(nodeSignal := true, owed := m.owed - 1)
    case OpenStream(peers) => m.(stream := StreamWrite(MapResponse(false, peers, []), Ids(peers)), engine := {})
    case TakePeerSignal => m.(peerSignal := false, stream := StreamTook(m.stream.known))
    case SnapshotStore(peers, res) => m.(stream := StreamWrite(res, Ids(peers)))
    case FinishWrite(written) =>
      if written then m.(engine := Believe(m.engine, m.stream.res), stream := StreamIdle(m.stream.known))
      else m.(stream := StreamOff)
    case StreamKeepAlive(written) =>
      if written then m.(engine := Believe(m.engine, KEEP_ALIVE)) else m.(stream := StreamOff)
    case StopStream => m.(stream := StreamOff)
  }

  ghost predicate Sending(m: Machine, sid: SessionId) {
    m.lock.Some? && m.lock.value.sending == Some(sid)
  }

  /** A removed session whose close notification has not been made yet. */
  ghost predicate NotificationDue(m: Machine, sid: SessionId) {
    || Sending(m, sid)
    || (m.lock.Some? && sid in m.lock.value.removed)
    || (m.recv.RecvNotify? && sid in m.recv.ids)
    || (m.reaper.ReapNotify? && sid in m.reaper.ids)
  }

  ghost function Only(leases: set<(SessionId, Port)>, sid: SessionId): set<(SessionId, Port)> {
    set l | l in leases && l.0 == sid
  }

  ghost function NoteTrack(m: Machine, h: History): History
    requires m.recv.RecvGot?
  {
    var (_, verdict) := Track(m.peers, m.recv.sid, m.recv.source, m.recv.body, m.recv.at);
    if verdict.Accepted? && m.recv.body.NodeUpdate? then
      h.(announced := h.announced[m.recv.sid := m.recv.body.node], stale := h.stale - {m.recv.sid})
    else h
  }

  ghost function NoteEnqueue(m: Machine, h: History): History
    requires m.recv.RecvEnqueue?
  {
    if m.recv.sid in m.peers || Sending(m, m.recv.sid) then h else h.(stale := h.stale + {m.recv.sid})
  }

  ghost function NoteOpen(m: Machine, h: History, outcome: U.Outcome): History
    requires m.recv.RecvOpen?
  {
    var lease := (m.recv.sid, m.recv.port);
    if outcome != U.Granted then h
    else if m.recv.sid in m.peers then
      h.(granted := h.granted + {lease}, robbed := h.robbed - {lease}, leaked := h.leaked - {lease}, closing := h.closing - {lease})
    else if NotificationDue(m, m.recv.sid) then h.(closing := h.closing + {lease}, leaked := h.leaked - {lease})
    else h.(leaked := h.leaked + {lease})
  }

  /** The session's life ends: nothing it announced, was told or opened counts. */
  ghost function NoteRemoval(h: History, sid: SessionId): History {
    var held := (Only(h.granted, sid) - h.robbed) + Only(h.leaked, sid);
    h.(announced := h.announced - {sid}, stale := h.stale - {sid},
       told := h.told - {sid}, fanLive := h.fanLive - {sid},
       granted := h.granted - Only(h.granted, sid), robbed := h.robbed - Only(h.robbed, sid),
       leaked := h.leaked - Only(h.leaked, sid), closing := h.closing + held,
       departed := h.departed + {sid})
  }

  ghost function NoteClosed(h: History, sid: SessionId): History {
    h.(robbed := h.robbed + Only(h.granted, sid), leaked := h.leaked - Only(h.leaked, sid),
       closing := h.closing - Only(h.closing, sid))
  }

  ghost function Note(m: Machine, h: History, a: Action): History
    requires Enabled(m, a)
  {
    match a
    case TrackMessage => NoteTrack(m, h)
    case EnqueueNode => NoteEnqueue(m, h)
    case OpenPort(forwarding, ready, listenOk) =>
      NoteOpen(m, h, U.Open(m.udp, m.recv.sid, m.recv.port, forwarding, ready, listenOk).1)
    case SendReply(_) =>
      if Carried(m.recv.reply).Some? && Carried(m.recv.reply) == m.lastNode && m.recv.sid in m.peers then h.(told := h.told + {m.recv.sid}) else h
    case NotifyRecv => NoteClosed(h, m.recv.ids[0])
    case RemoveVictim(sid) => NoteRemoval(h, sid)
    case NotifyReap => NoteClosed(h, m.reaper.ids[0])
    case StoreLast => h.(told := {})
    case SnapshotPeers => h.(fanLive := m.peers.Keys)
    case SendNode(sid) => if Some(m.fan.node) == m.lastNode && sid in h.fanLive then h.(told := h.told + {sid}) else h
    case OpenStream(_) => h.(snap := m.store)
    case SnapshotStore(_, _) => h.(snap := m.store)
    case _ => h
  }

  ghost function Apply(s: State, a: Action): State
    requires Enabled(s.m, a)
  {
    State(Next(s.m, a), Note(s.m, s.h, a))
  }

  /** The state after a run, if every action was enabled when it was taken. */
  ghost function Exec(run: seq<Action>): Option<State> {
    if run == [] then Some(INITIAL)
    else
      var before := Exec(run[..|run| - 1]);
      if before.Some? && Enabled(before.value.m, run[|run| - 1])
      then Some(Apply(before.value, run[|run| - 1]))
      else None
  }

  ghost predicate Possible(run: seq<Action>) {
    Exec(run).Some?
  }

  ghost function After(run: seq<Action>): State
    requires Possible(run)
  {
    Exec(run).value
  }

  lemma {:induction false} PossiblePrefix(run: seq<Action>, k: nat)
    requires Possible(run) && k <= |run|
    ensures Possible(run[..k])
    ensures k < |run| ==>
              Enabled(After(run[..k]).m, run[k]) && Possible(run[..k + 1]) && After(run[..k + 1]) == Apply(After(run[..k]), run[k])
    decreases |run|
  {
    if k == |run| {
      assert run[..k] == run;
    } else if k == |run| - 1 {
      assert run[..k + 1] == run;
    } else {
      var shorter := run[..|run| - 1];
      PossiblePrefix(shorter, k);
      assert shorter[..k] == run[..k] && shorter[..k + 1] == run[..k + 1];
    }
  }

  /** The step from a message's acceptance to its effect takes less than the
      inactivity timeout. */
  ghost predicate Timely(m: Machine, a: Action) {
    && (a.EnqueueNode? && m.recv.RecvEnqueue? ==> m.now < m.recv.at + INACTIVE_TIMEOUT)
    && (a.OpenPort? && m.recv.RecvOpen? ==> m.now < m.recv.at + INACTIVE_TIMEOUT)
  }

  ghost predicate TimelyRun(run: seq<Action>)
    requires Possible(run)
  {
    forall k :: 0 <= k < |run| && Possible(run[..k]) ==> Timely(After(run[..k]).m, run[k])
  }

  /** A session that was removed does not say Hello again: each client process
      draws a fresh session ID and says Hello once. */
  ghost predicate HelloOnce(s: State, a: Action) {
    a.TrackMessage? && s.m.recv.RecvGot? && s.m.recv.body.Hello? && s.m.recv.sid !in s.m.peers
    ==> s.m.recv.sid !in s.h.departed
  }

  ghost predicate HelloOnceRun(run: seq<Action>)
    requires Possible(run)
  {
    forall k :: 0 <= k < |run| && Possible(run[..k]) ==> HelloOnce(After(run[..k]), run[k])
  }
}
