/** What holds of the host over every run. */
module HostTheorems {
  import opened Overlay
  import opened PeerStores
  import opened Pipeline
  import opened Footprints
  import opened Replays
  import opened NewestNode
  import opened Wakeups
  import opened Leases
  import opened Timeliness
  import U = UdpLeases

  ghost predicate Invariant(s: State) {
    && Locking(s.m)
    && Refines(s.m, s.h)
    && NobodyMissed(s.m, s.h)
    && SelfOnItsWay(s.m)
    && NoLostWakeup(s.m, s.h)
    && ViewCurrent(s.m, s.h)
    && LeasesAccounted(s.m, s.h)
    && Clocked(s.m)
  }

  lemma InvariantKept(s: State, a: Action)
    requires Invariant(s) && Enabled(s.m, a)
    ensures Invariant(Apply(s, a))
  {
    hide Locking, Refines, NobodyMissed, SelfOnItsWay, NoLostWakeup, ViewCurrent, LeasesAccounted, Clocked;
    hide Enabled, Next, Note;
    LockingKept(s.m, a);
    RefinesKept(s, a);
    NobodyMissedKept(s, a);
    SelfOnItsWayKept(s.m, a);
    NoLostWakeupKept(s, a);
    ViewCurrentKept(s, a);
    LeasesAccountedKept(s, a);
    ClockedKept(s.m, a);
  }

  lemma InitialInvariant()
    ensures Invariant(INITIAL)
  {
    assert Settled(INITIAL.m) == map[];
  }

  /** The invariant holds of every reachable state, whatever the interleaving. */
  lemma {:induction false} InvariantHolds(run: seq<Action>)
    requires Possible(run)
    ensures Invariant(After(run))
    decreases |run|
  {
    hide Invariant, Enabled, Apply;
    if run == [] {
      InitialInvariant();
    } else {
      InvariantHolds(run[..|run| - 1]);
      InvariantKept(After(run[..|run| - 1]), run[|run| - 1]);
    }
  }

  ghost predicate Quiescent(m: Machine) {
    && m.inbox == [] && m.outbox == [] && !m.peerSignal && !m.nodeSignal && m.owed == 0
    && m.lock.None? && (m.recv.RecvIdle? || m.recv.RecvStopped?) && m.reaper.ReapIdle?
    && m.fan.FanIdle? && m.cons.ConsIdle? && m.stream.StreamIdle?
  }

  lemma SettledAtRest(m: Machine, h: History)
    requires Refines(m, h) && Quiescent(m)
    ensures m.store.Keys == h.announced.Keys + h.stale && h.announced.Keys !! h.stale
    ensures forall sid :: sid in h.announced ==> sid in m.store && m.store[sid] == h.announced[sid]
  {
    assert Pending(m) == [];
    assert Settled(m) == m.store;
    hide Settled;
    forall sid ensures Agrees(m, h, sid) {
      assert InTransit(m, sid) || Agrees(m, h, sid);
    }
    forall sid ensures sid in m.store <==> sid in h.announced || sid in h.stale {
      assert Agrees(m, h, sid);
    }
    forall sid | sid in h.announced ensures sid in m.store && m.store[sid] == h.announced[sid] {
      assert Agrees(m, h, sid);
    }
  }

  /** End to end, without assumptions: at rest the store is what the live
      sessions announced exactly if no node outlived its session, and the engine
      believes the IDs in the store. */
  lemma EndToEnd(run: seq<Action>)
    requires Possible(run) && Quiescent(After(run).m)
    ensures var (m, h) := (After(run).m, After(run).h);
            && (m.store == h.announced <==> h.stale == {})
            && m.store.Keys == h.announced.Keys + h.stale
            && h.announced.Keys <= m.peers.Keys
            && m.engine == StoreIds(m.store)
  {
    InvariantHolds(run);
    var (m, h) := (After(run).m, After(run).h);
    hide After, Settled, InTransit;
    SettledAtRest(m, h);
  }

  /** With every accepted message acted on within the timeout, the engine ends
      up believing exactly the IDs announced by the live sessions. */
  lemma EngineAgreesWithSessions(run: seq<Action>)
    requires Possible(run) && TimelyRun(run) && Quiescent(After(run).m)
    ensures After(run).m.engine == StoreIds(After(run).h.announced)
    ensures After(run).m.store == After(run).h.announced
  {
    EndToEnd(run);
    TimelyNeverStale(run);
  }

  lemma TimelyPrefix(run: seq<Action>, k: nat)
    requires Possible(run) && TimelyRun(run) && k < |run|
    ensures Possible(run[..k]) && TimelyRun(run[..k]) && Timely(After(run[..k]).m, run[k])
  {
    PossiblePrefix(run, k);
    forall j | 0 <= j < k && Possible(run[..k][..j]) ensures Timely(After(run[..k][..j]).m, run[..k][j]) {
      assert run[..k][..j] == run[..j];
    }
  }

  lemma {:induction false} TimelyNeverStale(run: seq<Action>)
    requires Possible(run) && TimelyRun(run)
    ensures After(run).h.stale == {} && After(run).h.leaked == {}
    decreases |run|
  {
    if run != [] {
      var before := run[..|run| - 1];
      var a := run[|run| - 1];
      TimelyPrefix(run, |run| - 1);
      TimelyNeverStale(before);
      InvariantHolds(before);
      var s := After(before);
      assert After(run) == Apply(s, a) && Enabled(s.m, a);
      hide Enabled, Apply, Locking, Refines, NobodyMissed, SelfOnItsWay, NoLostWakeup, ViewCurrent, LeasesAccounted, Clocked;
      if a.EnqueueNode? || a.OpenPort? {
        TimelyStepFindsSession(s.m, a);
      }
      StaleOnlyByEnqueue(s, a);
      LeakedOnlyByOpen(s, a);
    }
  }

  /** A node update that is enqueued less than the timeout after its message was
      read is enqueued for a session still live, whatever the reaper did. */
  lemma NoResurrection(run: seq<Action>, k: nat)
    requires Possible(run) && k < |run| && run[k].EnqueueNode?
    requires Possible(run[..k]) && Timely(After(run[..k]).m, run[k])
    ensures After(run[..k]).m.recv.RecvEnqueue?
    ensures After(run[..k]).m.recv.sid in After(run[..k]).m.peers
  {
    PossiblePrefix(run, k);
    InvariantHolds(run[..k]);
    TimelyStepFindsSession(After(run[..k]).m, run[k]);
  }

  /** At every moment each live session was sent the newest node, or a step
      still to come is bound to send it; at rest all were, and the newest node is
      the one the control server stored last. */
  lemma NewestNodeReachesEveryone(run: seq<Action>)
    requires Possible(run)
    ensures var (m, h) := (After(run).m, After(run).h);
            && (m.lastNode.Some? ==> forall sid :: sid in m.peers ==> Informed(m, h, sid))
            && (Quiescent(m) && m.lastNode.Some? ==> h.told == m.peers.Keys)
            && (Quiescent(m) && m.selfNode.Some? ==> m.lastNode == m.selfNode)
  {
    InvariantHolds(run);
    var (m, h) := (After(run).m, After(run).h);
    if m.lastNode.Some? && Quiescent(m) {
      forall sid | sid in m.peers ensures sid in h.told {
        assert Informed(m, h, sid);
      }
    }
  }

  /** Whenever the store moved on since the stream's last snapshot, a wake-up is
      pending, about to be raised, or just taken. */
  lemma WakeupNeverLost(run: seq<Action>)
    requires Possible(run)
    ensures var (m, h) := (After(run).m, After(run).h);
            !m.stream.StreamOff? && m.store != h.snap ==> m.peerSignal || m.cons.ConsSignal? || m.stream.StreamTook?
  {
    InvariantHolds(run);
  }

  /** The settled queue is the map from each live session to what it announced
      since its current Hello, except where a node outlived its session. */
  lemma QueueRefinesMap(run: seq<Action>)
    requires Possible(run)
    ensures var (m, h) := (After(run).m, After(run).h);
            && h.announced.Keys <= m.peers.Keys
            && forall sid :: !InTransit(m, sid) ==>
                 && (sid in Settled(m) <==> sid in h.announced || sid in h.stale)
                 && (sid in h.announced ==> Settled(m)[sid] == h.announced[sid])
  {
    InvariantHolds(run);
    hide Settled;
    var (m, h) := (After(run).m, After(run).h);
    forall sid | !InTransit(m, sid) ensures Agrees(m, h, sid) {
    }
  }

  /** No removal is being carried from the table to the lease owner. */
  ghost predicate NothingDue(m: Machine) {
    m.lock.None? && !m.recv.RecvNotify? && !m.reaper.ReapNotify?
  }

  /** With no notification due, the leases held are those live sessions opened
      in their current life exactly if none leaked and none was taken away. The
      listener book always balances. */
  lemma LeasesFollowSessions(run: seq<Action>)
    requires Possible(run) && NothingDue(After(run).m)
    ensures var (m, h) := (After(run).m, After(run).h);
            && U.Wellformed(m.udp) && U.Balanced(m.udp)
            && (forall l :: l in h.granted ==> l.0 in m.peers)
            && ((forall sid, port: Port :: U.Holds(m.udp, sid, port) <==> (sid, port) in h.granted)
                <==> h.leaked == {} && h.robbed == {})
  {
    InvariantHolds(run);
    var (m, h) := (After(run).m, After(run).h);
    hide After, Locking;
    assert forall sid :: !NotificationDue(m, sid);
    assert h.closing == {};
    assert forall sid, port :: U.Holds(m.udp, sid, port) <==> Accounted(h, sid, port);
    hide U.Wellformed, U.Balanced, U.Holds, LeasesAccounted;
    if l :| l in h.leaked {
      assert U.Holds(m.udp, l.0, l.1) <==> Accounted(h, l.0, l.1);
      assert (l.0, l.1) == l;
    } else if l :| l in h.robbed {
      assert U.Holds(m.udp, l.0, l.1) <==> Accounted(h, l.0, l.1);
      assert (l.0, l.1) == l;
    } else {
      assert h.leaked == {} && h.robbed == {};
    }
  }

  lemma HelloOncePrefix(run: seq<Action>, k: nat)
    requires Possible(run) && HelloOnceRun(run) && k < |run|
    ensures Possible(run[..k]) && HelloOnceRun(run[..k]) && HelloOnce(After(run[..k]), run[k])
  {
    PossiblePrefix(run, k);
    forall j | 0 <= j < k && Possible(run[..k][..j]) ensures HelloOnce(After(run[..k][..j]), run[..k][j]) {
      assert run[..k][..j] == run[..j];
    }
  }

  lemma {:induction false} HelloOnceNeverRobs(run: seq<Action>)
    requires Possible(run) && HelloOnceRun(run)
    ensures NoLateNotification(After(run)) && After(run).h.robbed == {}
    decreases |run|
  {
    if run != [] {
      var before := run[..|run| - 1];
      var a := run[|run| - 1];
      HelloOncePrefix(run, |run| - 1);
      HelloOnceNeverRobs(before);
      InvariantHolds(before);
      var s := After(before);
      assert After(run) == Apply(s, a) && Enabled(s.m, a);
      hide Enabled, Apply, NoLateNotification;
      NoLateNotificationKept(s, a);
      RobbedOnlyByLateNotification(s, a);
    }
  }

  /** With both assumptions a UDP port has an open listener exactly if some live
      session opened it in its current life. */
  lemma PortOpenIffLeased(run: seq<Action>, port: Port)
    requires Possible(run) && TimelyRun(run) && HelloOnceRun(run) && NothingDue(After(run).m)
    ensures var (m, h) := (After(run).m, After(run).h);
            port in m.udp.ports <==> exists sid :: sid in m.peers && (sid, port) in h.granted
  {
    LeasesFollowSessions(run);
    TimelyNeverStale(run);
    HelloOnceNeverRobs(run);
    var (m, h) := (After(run).m, After(run).h);
    hide After;
    if port in m.udp.ports {
      var sid :| sid in m.udp.ports[port].sessions;
      assert U.Holds(m.udp, sid, port);
    }
    if sid :| (sid, port) in h.granted {
      assert U.Holds(m.udp, sid, port);
    }
  }

  /** The reaper removes only sessions silent for the whole timeout. */
  lemma ReaperRemovesOnlySilent(run: seq<Action>, k: nat)
    requires Possible(run) && k < |run| && run[k].RemoveVictim? && Possible(run[..k])
    ensures var m := After(run[..k]).m;
            m.lock.Some? && (m.lock.value.owner == Reaper ==>
                               run[k].sid in m.peers && m.peers[run[k].sid].lastSeen + INACTIVE_TIMEOUT <= m.now)
  {
    PossiblePrefix(run, k);
    InvariantHolds(run[..k]);
  }

  lemma StoppedKept(m: Machine, a: Action)
    requires Locking(m) && Enabled(m, a) && m.recv.RecvStopped?
    ensures !InReceiveLoop(a) && Next(m, a).recv.RecvStopped?
  {
    hide Next;
    if InSweep(a) {
      SweepFootprint(m, a);
    } else if !InReceiveLoop(a) {
      QuietFootprint(m, a);
    }
  }

  lemma StopsThere(m: Machine, a: Action)
    requires Enabled(m, a) && (a == RecvFail || a == SendReply(false))
    ensures Next(m, a).recv.RecvStopped?
  {
  }

  /** Once receiving or replying fails the receive loop has stopped for good. */
  lemma {:induction false} ListenerStopsForGood(run: seq<Action>, k: nat, j: nat)
    requires Possible(run) && k < j <= |run| && (run[k] == RecvFail || run[k] == SendReply(false))
    ensures Possible(run[..j]) && After(run[..j]).m.recv.RecvStopped?
    ensures j < |run| ==> !InReceiveLoop(run[j])
  {
    hide Enabled, Next, Note, Locking, Invariant;
    PossiblePrefix(run, j);
    PossiblePrefix(run, j - 1);
    var s := After(run[..j - 1]);
    if k == j - 1 {
      StopsThere(s.m, run[k]);
    } else {
      ListenerStopsForGood(run, k, j - 1);
      LockingHolds(run[..j - 1]);
      StoppedKept(s.m, run[j - 1]);
    }
    if j < |run| {
      LockingHolds(run[..j]);
      StoppedKept(After(run[..j]).m, run[j]);
    }
  }

  lemma LockingHolds(run: seq<Action>)
    requires Possible(run)
    ensures Locking(After(run).m)
  {
    InvariantHolds(run);
  }

  /** The relay delivered a message of this session from this key. */
  ghost predicate CameFrom(run: seq<Action>, sid: SessionId, key: DerpKey) {
    exists k, body :: 0 <= k < |run| && run[k] == Deliver(sid, key, body)
  }

  /** What the host sends to came from there, and is no empty key. */
  ghost predicate SourcesKnown(run: seq<Action>, m: Machine) {
    && (m.recv.RecvGot? ==> CameFrom(run, m.recv.sid, m.recv.source))
    && (forall sid :: sid in m.peers ==> m.peers[sid].source != 0 && CameFrom(run, sid, m.peers[sid].source))
    && (m.fan.FanSend? ==> forall sid :: sid in m.fan.targets ==> m.fan.targets[sid] != 0 && CameFrom(run, sid, m.fan.targets[sid]))
  }

  /** How the table of sources and the fan-out's targets can change. */
  lemma SourcesStep(m: Machine, a: Action)
    requires Enabled(m, a)
    ensures var n := Next(m, a);
            && (n.recv.RecvGot? ==> n.recv == m.recv || a == Deliver(n.recv.sid, n.recv.source, n.recv.body))
            && (forall sid :: sid in n.peers ==>
                  || (sid in m.peers && n.peers[sid].source == m.peers[sid].source)
                  || (m.recv.RecvGot? && m.recv.sid == sid && n.peers[sid].source == m.recv.source != 0))
            && (n.fan.FanSend? ==> forall sid :: sid in n.fan.targets ==>
                  || (m.fan.FanSend? && sid in m.fan.targets && n.fan.targets[sid] == m.fan.targets[sid])
                  || (sid in m.peers && n.fan.targets[sid] == m.peers[sid].source))
  {
    if a.TrackMessage? {
      SourcesByTrack(m);
    } else if InReceiveLoop(a) {
      ReceiveLoopFootprint(m, a);
      hide U.Open, U.CloseSession;
    } else if InSweep(a) {
      SourcesBySweep(m, a);
    } else if !InFanOut(a) {
      QuietFootprint(m, a);
      FanKept(m, a);
      hide Next, Enabled;
    }
  }

  lemma SourcesByTrack(m: Machine)
    requires Enabled(m, TrackMessage)
    ensures var n := Next(m, TrackMessage);
            && !n.recv.RecvGot? && n.fan == m.fan
            && forall sid :: sid in n.peers ==>
                 || (sid in m.peers && n.peers[sid].source == m.peers[sid].source)
                 || (m.recv.sid == sid && n.peers[sid].source == m.recv.source != 0)
  {
    TrackShapes(m);
    hide Next;
  }

  lemma SourcesBySweep(m: Machine, a: Action)
    requires Enabled(m, a) && InSweep(a)
    ensures var n := Next(m, a);
            && (n.recv == m.recv || !n.recv.RecvGot?) && n.fan == m.fan
            && forall sid :: sid in n.peers ==> sid in m.peers && n.peers[sid] == m.peers[sid]
  {
    SweepFootprint(m, a);
    if !a.RemoveVictim? {
      hide Next, Enabled;
    }
  }

  lemma FanKept(m: Machine, a: Action)
    requires Enabled(m, a) && Quiet(a) && !InFanOut(a)
    ensures Next(m, a).fan == m.fan
  {
    if InConsumer(a) {
      ConsumerFootprint(m, a);
    } else if InStream(a) {
      StreamFootprint(m, a);
    } else {
      ControlFootprint(m, a);
    }
    hide Next, Enabled;
  }

  lemma CameFromLonger(run: seq<Action>, a: Action, sid: SessionId, key: DerpKey)
    ensures CameFrom(run, sid, key) ==> CameFrom(run + [a], sid, key)
    ensures a.Deliver? && a.sid == sid && a.source == key ==> CameFrom(run + [a], sid, key)
  {
    if k, body :| 0 <= k < |run| && run[k] == Deliver(sid, key, body) {
      assert (run + [a])[k] == Deliver(sid, key, body);
    }
    if a.Deliver? && a.sid == sid && a.source == key {
      assert (run + [a])[|run|] == Deliver(sid, key, a.body);
    }
  }

  lemma {:induction false} SourcesKnownHolds(run: seq<Action>)
    requires Possible(run)
    ensures SourcesKnown(run, After(run).m)
    decreases |run|
  {
    hide Enabled, Next, Note, CameFrom;
    if run != [] {
      var before := run[..|run| - 1];
      var a := run[|run| - 1];
      assert run == before + [a];
      SourcesKnownHolds(before);
      var m := After(before).m;
      SourcesStep(m, a);
      assert After(run).m == Next(m, a);
      forall sid, key ensures CameFrom(before, sid, key) ==> CameFrom(run, sid, key) {
        CameFromLonger(before, a, sid, key);
      }
      if a.Deliver? {
        CameFromLonger(before, a, a.sid, a.source);
      }
    }
  }

  /** The fan-out sends each session's copy to a key the relay delivered that
      session's messages from. */
  lemma NodeGoesWhereHeard(run: seq<Action>, k: nat)
    requires Possible(run) && k < |run| && run[k].SendNode?
    ensures Possible(run[..k])
    ensures var fan := After(run[..k]).m.fan;
            && fan.FanSend? && run[k].sid in fan.targets
            && fan.targets[run[k].sid] != 0 && CameFrom(run[..k], run[k].sid, fan.targets[run[k].sid])
  {
    PossiblePrefix(run, k);
    SourcesKnownHolds(run[..k]);
    hide CameFrom;
  }
}
