/** Concrete runs on which the unconditional properties fail: the conditions of
    the theorems are needed. */
module Scenarios {
  import opened Wrappers
  import opened Overlay
  import opened Sessions
  import opened PeerStores
  import opened Streaming
  import opened Pipeline
  import opened HostTheorems
  import opened Progress
  import U = UdpLeases

  ghost predicate Reachable(s: State) {
    exists run :: Possible(run) && After(run) == s
  }

  lemma Reach(s: State, a: Action)
    requires Reachable(s) && Enabled(s.m, a)
    ensures Reachable(Apply(s, a))
  {
    hide Enabled, Apply;
    var run :| Possible(run) && After(run) == s;
    var longer := run + [a];
    assert longer[..|longer| - 1] == run;
    assert Possible(longer) && After(longer) == Apply(s, a);
  }

  lemma InitiallyReachable()
    ensures Reachable(INITIAL)
  {
    assert Possible([]) && After([]) == INITIAL;
  }

  /** The control server stores a node and queues it for the fan-out's channel. */
  lemma OfferNode(s: State, node: Node) returns (t: State)
    requires Reachable(s) && s.m.cons.ConsIdle? && s.m.owed == 0
    ensures Reachable(t) && t == s.(m := s.m.(selfNode := Some(node), nodeSignal := false, cons := ConsSend(node)))
  {
    hide Reachable;
    t := s;
    Reach(t, StoreSelf(node)); t := Apply(t, StoreSelf(node));
    Reach(t, NotifySelf); t := Apply(t, NotifySelf);
    Reach(t, TakeNodeSignal); t := Apply(t, TakeNodeSignal);
    Reach(t, LoadSelf); t := Apply(t, LoadSelf);
  }

  lemma {:induction false} FillOutbox(s: State, node: Node) returns (t: State)
    requires Reachable(s) && s.m.cons.ConsIdle? && s.m.owed == 0 && |s.m.outbox| <= CAPACITY
    ensures Reachable(t) && t.m.cons.ConsIdle? && t.m.owed == 0 && |t.m.outbox| == CAPACITY
    ensures t == s.(m := s.m.(selfNode := t.m.selfNode, nodeSignal := t.m.nodeSignal, outbox := t.m.outbox))
    decreases CAPACITY - |s.m.outbox|
  {
    hide Reachable;
    t := s;
    if |s.m.outbox| < CAPACITY {
      t := OfferNode(s, node);
      Reach(t, SendOut); t := Apply(t, SendOut);
      t := FillOutbox(t, node);
    }
  }

  /** A session says Hello and is answered. */
  lemma Greet(s: State, sid: SessionId, source: DerpKey) returns (t: State)
    requires Reachable(s) && s.m.recv.RecvIdle? && s.m.lock.None? && sid != "" && source != 0 && s.m.lastNode.None?
    ensures Reachable(t) && t == s.(m := s.m.(peers := s.m.peers[sid := Peer(source, s.m.now)]))
  {
    hide Reachable;
    t := s;
    Reach(t, Deliver(sid, source, Hello)); t := Apply(t, Deliver(sid, source, Hello));
    Reach(t, TrackMessage); t := Apply(t, TrackMessage);
    Reach(t, LoadLastNode); t := Apply(t, LoadLastNode);
    Reach(t, SendReply(true)); t := Apply(t, SendReply(true));
  }

  /** A live session's message is accepted. */
  lemma Accept(s: State, sid: SessionId, source: DerpKey, body: Body) returns (t: State)
    requires Reachable(s) && s.m.recv.RecvIdle? && s.m.lock.None? && sid in s.m.peers && sid != "" && source != 0
    requires body.NodeUpdate? || (body.OpenUdp? && body.requestId != "" && body.port != 0)
    ensures Reachable(t)
    ensures t.m == s.m.(peers := s.m.peers[sid := Peer(source, s.m.now)], recv := AfterTrack(sid, body, s.m.now))
    ensures t.h == if body.NodeUpdate? then s.h.(announced := s.h.announced[sid := body.node], stale := s.h.stale - {sid}) else s.h
  {
    hide Reachable;
    t := s;
    Reach(t, Deliver(sid, source, body)); t := Apply(t, Deliver(sid, source, body));
    Reach(t, TrackMessage); t := Apply(t, TrackMessage);
  }

  lemma {:induction false} FillInbox(s: State, sid: SessionId, source: DerpKey, node: Node) returns (t: State)
    requires Reachable(s) && s.m.recv.RecvIdle? && s.m.lock.None? && sid in s.m.peers && sid != "" && source != 0
    requires |s.m.inbox| <= CAPACITY
    ensures Reachable(t) && t.m.recv.RecvIdle? && sid in t.m.peers && |t.m.inbox| == CAPACITY
    ensures t.m == s.m.(peers := t.m.peers, inbox := t.m.inbox)
    decreases CAPACITY - |s.m.inbox|
  {
    hide Reachable;
    t := s;
    if |s.m.inbox| < CAPACITY {
      t := Accept(s, sid, source, NodeUpdate(node));
      Reach(t, EnqueueNode); t := Apply(t, EnqueueNode);
      Reach(t, LoadLastNode); t := Apply(t, LoadLastNode);
      Reach(t, SendReply(true)); t := Apply(t, SendReply(true));
      t := FillInbox(t, sid, source, node);
    }
  }

  /** With both channels full the host can deadlock. */
  lemma DeadlockReachable(node: Node) returns (t: State)
    ensures Reachable(t) && Deadlocked(t.m)
  {
    hide Reachable, Enabled, Next, Note, Deadlocked;
    InitiallyReachable();
    t := Greet(INITIAL, "a", 1);
    t := OfferNode(t, node);
    t := BeginFanOut(t, node);
    t := DeadlockFrom(t, node);
  }

  /** The fan-out takes the node and waits for the mutex. */
  lemma BeginFanOut(s: State, node: Node) returns (t: State)
    requires Reachable(s) && s.m.cons == ConsSend(node) && s.m.outbox == [] && s.m.fan.FanIdle?
    ensures Reachable(t)
    ensures t.m == s.m.(cons := ConsIdle, lastNode := Some(node), fan := FanSnapshot(node))
  {
    hide Reachable;
    t := s;
    Reach(t, SendOut); t := Apply(t, SendOut);
    Reach(t, TakeOut); t := Apply(t, TakeOut);
    Reach(t, StoreLast); t := Apply(t, StoreLast);
  }

  lemma DeadlockFrom(s: State, node: Node) returns (t: State)
    requires Reachable(s) && s.m.recv.RecvIdle? && s.m.lock.None? && "a" in s.m.peers && s.m.fan.FanSnapshot?
    requires s.m.cons.ConsIdle? && s.m.owed == 0 && s.m.outbox == [] && s.m.inbox == [] && s.m.reaper.ReapIdle?
    ensures Reachable(t) && Deadlocked(t.m)
  {
    hide Reachable;
    t := FillOutbox(s, node);
    t := OfferNode(t, node);
    t := FillInbox(t, "a", 1, node);
    Reach(t, Deliver("a", 1, Goodbye)); t := Apply(t, Deliver("a", 1, Goodbye));
    Reach(t, TrackMessage); t := Apply(t, TrackMessage);
    Reach(t, RemoveVictim("a")); t := Apply(t, RemoveVictim("a"));
  }

  /** The reaper removes the only session after the timeout, up to the point
      where its close notification is due. */
  lemma Reap(s: State, sid: SessionId) returns (t: State)
    requires Reachable(s) && s.m.lock.None? && s.m.reaper.ReapIdle? && !s.m.recv.RecvSweep? && |s.m.inbox| < CAPACITY
    requires s.m.peers.Keys == {sid} && s.m.peers[sid].lastSeen == s.m.now
    ensures Reachable(t)
    ensures t.m == s.m.(now := s.m.now + INACTIVE_TIMEOUT, peers := map[], reaper := ReapNotify([sid]),
                        inbox := s.m.inbox + [PeerUpdate(sid, None)])
    ensures t.h == NoteRemoval(s.h, sid)
  {
    hide Reachable;
    hide NoteRemoval;
    var later := s.m.now + INACTIVE_TIMEOUT;
    t := s;
    Reach(t, Advance(INACTIVE_TIMEOUT)); t := Apply(t, Advance(INACTIVE_TIMEOUT));
    Reach(t, Tick(later)); t := Apply(t, Tick(later));
    Reach(t, LockExpiry); t := Apply(t, LockExpiry);
    assert Silent(s.m.peers, later) == {sid};
    assert t.m == s.m.(now := later, reaper := ReapSweep, lock := Some(Sweep(Reaper, {sid}, None, [])));
    t := ReapSwept(t, sid);
  }

  lemma ReapSwept(s: State, sid: SessionId) returns (t: State)
    requires Reachable(s) && |s.m.inbox| < CAPACITY && s.m.peers.Keys == {sid}
    requires s.m.lock == Some(Sweep(Reaper, {sid}, None, []))
    ensures Reachable(t)
    ensures t.m == s.m.(peers := map[], reaper := ReapNotify([sid]), inbox := s.m.inbox + [PeerUpdate(sid, None)], lock := None)
    ensures t.h == NoteRemoval(s.h, sid)
  {
    hide Reachable;
    hide NoteRemoval;
    t := s;
    Reach(t, RemoveVictim(sid)); t := Apply(t, RemoveVictim(sid));
    assert t.m.peers == map[];
    Reach(t, SendRemoval); t := Apply(t, SendRemoval);
    assert t.m.lock.value.removed == [sid];
    Reach(t, EndSweep); t := Apply(t, EndSweep);
  }

  lemma CloseWithoutLease(sid: SessionId)
    ensures U.CloseSession(U.EMPTY, sid) == U.EMPTY
  {
    U.ReleasedNone(U.EMPTY, sid);
    assert U.EMPTY.ports.Keys == {};
  }

  lemma CloseOnlyLease(sid: SessionId, port: Port)
    ensures U.CloseSession(U.Table(map[port := U.PortState(0, {sid})], 1, {}, 0), sid).ports == map[]
  {
  }

  /** The reaper's close notification, for a session without leases. */
  lemma NotifyWithoutLease(s: State, sid: SessionId) returns (t: State)
    requires Reachable(s) && s.m.reaper == ReapNotify([sid]) && s.m.udp == U.EMPTY
    ensures Reachable(t) && t == State(s.m.(reaper := ReapIdle), NoteClosed(s.h, sid))
  {
    hide Reachable;
    CloseWithoutLease(sid);
    hide U.CloseSession, NoteClosed, Next, Note, Enabled;
    t := NotifyOnly(s, sid);
  }

  /** The stalled update goes out and is answered. */
  lemma EnqueueLate(s: State, sid: SessionId, node: Node) returns (t: State)
    requires Reachable(s) && s.m.recv == RecvEnqueue(sid, node, 0) && |s.m.inbox| < CAPACITY && s.m.lastNode.None?
    ensures Reachable(t) && t.h.announced == s.h.announced
    ensures t.m == s.m.(recv := RecvIdle, inbox := s.m.inbox + [PeerUpdate(sid, Some(node))])
  {
    hide Reachable;
    t := s;
    Reach(t, EnqueueNode); t := Apply(t, EnqueueNode);
    Reach(t, LoadLastNode); t := Apply(t, LoadLastNode);
    Reach(t, SendReply(true)); t := Apply(t, SendReply(true));
  }

  /** A node update that stalls for the whole timeout outlives its session: the
      engine is left believing in a peer no live session announced. */
  lemma StalledUpdateResurrects(node: Node) returns (t: State)
    ensures Reachable(t) && Quiescent(t.m)
    ensures t.m.peers == map[] && t.h.announced == map[] && t.m.engine == {node.id}
  {
    hide Reachable, Enabled, Next, Note;
    InitiallyReachable();
    t := Greet(INITIAL, "a", 1);
    t := Accept(t, "a", 1, NodeUpdate(node));
    t := Reap(t, "a");
    t := NotifyWithoutLease(t, "a");
    t := EnqueueLate(t, "a", node);
    assert t.m.inbox == [PeerUpdate("a", None), PeerUpdate("a", Some(node))];
    t := Consume(t, node);
    t := Show(t, node);
  }

  lemma Consume(s: State, node: Node) returns (t: State)
    requires Reachable(s) && s.m.cons.ConsIdle? && s.m.inbox == [PeerUpdate("a", None), PeerUpdate("a", Some(node))]
    requires s.m.store == map[]
    ensures Reachable(t) && t == s.(m := s.m.(inbox := [], store := map["a" := node], peerSignal := true))
  {
    hide Reachable;
    t := s;
    Reach(t, TakeUpdate); t := Apply(t, TakeUpdate);
    Reach(t, ApplyTaken); t := Apply(t, ApplyTaken);
    Reach(t, RaisePeerSignal); t := Apply(t, RaisePeerSignal);
    assert t.m.inbox == [PeerUpdate("a", Some(node))] && t.m.store == map[];
    Reach(t, TakeUpdate); t := Apply(t, TakeUpdate);
    Reach(t, ApplyTaken); t := Apply(t, ApplyTaken);
    Reach(t, RaisePeerSignal); t := Apply(t, RaisePeerSignal);
  }

  lemma OneNodeSnapshot(node: Node)
    ensures IsSnapshot(map["a" := node], [node])
    ensures Ids([node]) == {node.id}
  {
    var store := map["a" := node];
    assert Pick(store, ["a"]) == [node];
    assert Arranged(store, ["a"], [node]);
    assert [node][0].id in Ids([node]);
  }

  lemma Show(s: State, node: Node) returns (t: State)
    requires Reachable(s) && s.m.stream.StreamOff? && s.m.store == map["a" := node] && s.m.peerSignal
    ensures Reachable(t)
    ensures t.m == s.m.(peerSignal := false, stream := StreamIdle({node.id}), engine := {node.id})
    ensures t.h == s.h.(snap := s.m.store)
  {
    hide Reachable;
    OneNodeSnapshot(node);
    hide IsSnapshot, Ids;
    var res := MapResponse(false, [node], []);
    assert IsUpdate(res, {node.id}, [node]);
    assert Believe({}, res) == {node.id} && Believe({node.id}, res) == {node.id};
    hide IsUpdate, Believe, Next, Note, Enabled;
    t := ShowFirst(s, node);
    t := ShowAgain(t, node, res);
  }

  lemma ShowFirst(s: State, node: Node) returns (t: State)
    requires Reachable(s) && s.m.stream.StreamOff? && IsSnapshot(s.m.store, [node])
    requires Ids([node]) == {node.id} && Believe({}, MapResponse(false, [node], [])) == {node.id}
    ensures Reachable(t)
    ensures t == State(s.m.(stream := StreamIdle({node.id}), engine := {node.id}), s.h.(snap := s.m.store))
  {
    hide Reachable, IsSnapshot, Ids, Believe;
    t := s;
    Reach(t, OpenStream([node])); t := Apply(t, OpenStream([node]));
    Reach(t, FinishWrite(true)); t := Apply(t, FinishWrite(true));
  }

  lemma ShowAgain(s: State, node: Node, res: MapResponse) returns (t: State)
    requires Reachable(s) && s.m.stream == StreamIdle({node.id}) && s.m.engine == {node.id} && s.m.peerSignal
    requires IsSnapshot(s.m.store, [node]) && IsUpdate(res, {node.id}, [node])
    requires Believe({node.id}, res) == {node.id} && Ids([node]) == {node.id}
    ensures Reachable(t) && t == State(s.m.(peerSignal := false), s.h.(snap := s.m.store))
  {
    hide Reachable, IsSnapshot, IsUpdate, Believe, Ids;
    t := s;
    Reach(t, TakePeerSignal); t := Apply(t, TakePeerSignal);
    t := ShowUpdate(t, node, res);
  }

  lemma ShowUpdate(s: State, node: Node, res: MapResponse) returns (t: State)
    requires Reachable(s) && s.m.stream == StreamTook({node.id}) && s.m.engine == {node.id}
    requires IsSnapshot(s.m.store, [node]) && IsUpdate(res, {node.id}, [node])
    requires Believe({node.id}, res) == {node.id} && Ids([node]) == {node.id}
    ensures Reachable(t) && t == State(s.m.(stream := StreamIdle({node.id})), s.h.(snap := s.m.store))
  {
    hide Reachable, IsSnapshot, IsUpdate, Believe, Ids;
    t := s;
    Reach(t, SnapshotStore([node], res)); t := Apply(t, SnapshotStore([node], res));
    Reach(t, FinishWrite(true)); t := Apply(t, FinishWrite(true));
  }

  /** A request accepted earlier is handled and answered. */
  lemma HandleOpen(s: State, sid: SessionId, port: Port) returns (t: State)
    requires Reachable(s) && s.m.recv.RecvOpen? && s.m.recv.sid == sid && s.m.recv.port == port && s.m.udp == U.EMPTY
    ensures Reachable(t) && (sid in s.m.peers ==> (sid, port) in t.h.granted)
    ensures t.m == s.m.(recv := RecvIdle, udp := U.Table(map[port := U.PortState(0, {sid})], 1, {}, 0))
  {
    hide Reachable;
    t := s;
    Reach(t, OpenPort(true, true, true)); t := Apply(t, OpenPort(true, true, true));
    Reach(t, SendReply(true)); t := Apply(t, SendReply(true));
  }

  /** A UDP request that stalls for the whole timeout leaks its listener. */
  lemma StalledRequestLeaks(port: Port) returns (t: State)
    requires port != 0
    ensures Reachable(t) && NothingDue(t.m) && t.m.recv.RecvIdle?
    ensures t.m.peers == map[] && port in t.m.udp.ports
  {
    hide Reachable, Enabled, Next, Note;
    InitiallyReachable();
    t := Greet(INITIAL, "a", 1);
    t := Accept(t, "a", 1, OpenUdp("r", port));
    t := Reap(t, "a");
    t := NotifyWithoutLease(t, "a");
    t := HandleOpen(t, "a", port);
  }

  /** A session ID that says Hello again before its old removal was notified
      loses the port it just opened. */
  lemma LateNotificationRobs(port: Port) returns (t: State)
    requires port != 0
    ensures Reachable(t) && NothingDue(t.m) && t.m.recv.RecvIdle?
    ensures "a" in t.m.peers && ("a", port) in t.h.granted && port !in t.m.udp.ports
  {
    hide Reachable, Enabled, Next, Note, NoteRemoval, NoteClosed;
    InitiallyReachable();
    t := Greet(INITIAL, "a", 1);
    t := Reap(t, "a");
    t := Greet(t, "a", 1);
    t := Accept(t, "a", 1, OpenUdp("r", port));
    t := HandleOpen(t, "a", port);
    CloseOnlyLease("a", port);
    hide U.CloseSession;
    t := NotifyOnly(t, "a");
  }

  lemma NotifyOnly(s: State, sid: SessionId) returns (t: State)
    requires Reachable(s) && s.m.reaper == ReapNotify([sid])
    ensures Reachable(t) && t == State(s.m.(reaper := ReapIdle, udp := U.CloseSession(s.m.udp, sid)), NoteClosed(s.h, sid))
    ensures t.h.granted == s.h.granted
  {
    hide Reachable, U.CloseSession;
    Reach(s, NotifyReap); t := Apply(s, NotifyReap);
  }
}
