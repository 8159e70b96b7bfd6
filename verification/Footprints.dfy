/** What each goroutine touches: its steps leave every other field alone. */
module Footprints {
  import opened Wrappers
  import opened Pipeline
  import opened Sessions
  import U = UdpLeases

  ghost predicate InReceiveLoop(a: Action) {
    || a.Deliver? || a.PeerGone? || a.RecvFail? || a.TrackMessage? || a.LockGone? || a.EnqueueNode?
    || a.LoadLastNode? || a.OpenPort? || a.SendReply? || a.NotifyRecv?
  }

  /** Steps of the reaper, and of the sweep of whoever holds the mutex. */
  ghost predicate InSweep(a: Action) {
    a.RemoveVictim? || a.SendRemoval? || a.EndSweep? || a.Tick? || a.LockExpiry? || a.NotifyReap?
  }

  ghost predicate InFanOut(a: Action) {
    a.TakeOut? || a.StoreLast? || a.SnapshotPeers? || a.SendNode? || a.EndFanOut?
  }

  ghost predicate InConsumer(a: Action) {
    a.TakeUpdate? || a.ApplyTaken? || a.RaisePeerSignal? || a.TakeNodeSignal? || a.LoadSelf? || a.SendOut?
  }

  ghost predicate InStream(a: Action) {
    a.OpenStream? || a.TakePeerSignal? || a.SnapshotStore? || a.FinishWrite? || a.StreamKeepAlive? || a.StopStream?
  }

  /** Time and the control handlers. */
  ghost predicate InControl(a: Action) {
    a.Advance? || a.StoreSelf? || a.NotifySelf?
  }

  /** Tracking a message refuses it, begins or skips a removal, or accepts it. */
  ghost predicate TrackedInto(m: Machine, n: Machine)
    requires m.recv.RecvGot?
  {
    var (sid, body) := (m.recv.sid, m.recv.body);
    || n == m.(recv := RecvIdle)
    || (sid in m.peers && n == m.(lock := Some(Sweep(ReceiveLoop, {sid}, None, [])), recv := RecvSweep))
    || (sid !in m.peers && n == m.(recv := RecvNotify([sid])))
    || (&& sid != "" && m.recv.source != 0 && !body.Goodbye? && (sid in m.peers || body.Hello?)
        && n == m.(peers := m.peers[sid := Peer(m.recv.source, m.recv.at)], recv := AfterTrack(sid, body, m.recv.at)))
  }

  lemma TrackShapes(m: Machine)
    requires Enabled(m, TrackMessage)
    ensures TrackedInto(m, Next(m, TrackMessage))
  {
    hide AfterTrack;
  }

  lemma TrackFootprint(m: Machine)
    requires Enabled(m, TrackMessage)
    ensures var n := Next(m, TrackMessage);
            && n == m.(recv := n.recv, peers := n.peers, lock := n.lock)
            && m.peers.Keys <= n.peers.Keys
            && (n.lock.None? || (n.lock.value.sending.None? && n.lock.value.removed == []))
  {
    TrackShapes(m);
    hide Next, AfterTrack;
  }

  lemma OpenFootprint(m: Machine, a: Action)
    requires Enabled(m, a) && a.OpenPort?
    ensures var n := Next(m, a); n == m.(recv := n.recv, udp := n.udp)
  {
  }

  lemma ReceiveLoopFootprint(m: Machine, a: Action)
    requires Enabled(m, a) && InReceiveLoop(a)
    ensures var n := Next(m, a);
            && n == m.(recv := n.recv, peers := n.peers, lock := n.lock, inbox := n.inbox, udp := n.udp)
            && (!a.TrackMessage? ==> n.peers == m.peers && !n.recv.RecvEnqueue? && !n.recv.RecvOpen?)
            && (n.lock == m.lock || (m.lock.None? && n.lock.Some? && n.lock.value.sending.None? && n.lock.value.removed == []))
            && m.peers.Keys <= n.peers.Keys
            && (!a.EnqueueNode? ==> n.inbox == m.inbox)
            && (!a.OpenPort? && !a.NotifyRecv? ==> n.udp == m.udp)
  {
    if a.TrackMessage? {
      TrackFootprint(m);
    } else if a.OpenPort? {
      OpenFootprint(m, a);
    }
  }

  lemma SweepFootprint(m: Machine, a: Action)
    requires Enabled(m, a) && InSweep(a)
    ensures var n := Next(m, a);
            && n == m.(recv := n.recv, reaper := n.reaper, peers := n.peers, lock := n.lock, inbox := n.inbox, udp := n.udp)
            && (!a.RemoveVictim? ==> n.peers == m.peers)
            && (!a.SendRemoval? ==> n.inbox == m.inbox)
            && (!a.NotifyReap? ==> n.udp == m.udp)
            && (a.Tick? || a.NotifyReap? ==> n.lock == m.lock)
            && (n.lock.Some? && n.lock.value.sending.Some? && !a.RemoveVictim? ==> n.lock == m.lock)
            && (n.recv == m.recv || (a.EndSweep? && m.lock.value.owner == ReceiveLoop && (n.recv.RecvIdle? || n.recv.RecvNotify?)))
  {
  }

  lemma FanOutFootprint(m: Machine, a: Action)
    requires Enabled(m, a) && InFanOut(a)
    ensures var n := Next(m, a);
            n == m.(fan := n.fan, outbox := n.outbox, lastNode := n.lastNode) && |n.outbox| <= |m.outbox|
  {
  }

  lemma ConsumerFootprint(m: Machine, a: Action)
    requires Enabled(m, a) && InConsumer(a)
    ensures var n := Next(m, a);
            && n == m.(cons := n.cons, inbox := n.inbox, store := n.store, peerSignal := n.peerSignal,
                       nodeSignal := n.nodeSignal, outbox := n.outbox)
            && (n.inbox == m.inbox || (m.inbox != [] && n.inbox == m.inbox[1..]))
            && (n.outbox == m.outbox || |n.outbox| <= CAPACITY)
            && (!a.TakeUpdate? && !a.ApplyTaken? ==> n.inbox == m.inbox && n.store == m.store && !n.cons.ConsApply?)
            && (!a.ApplyTaken? ==> n.store == m.store)
            && (m.peerSignal || m.cons.ConsSignal? ==> n.peerSignal || n.cons.ConsSignal?)
  {
  }

  lemma StreamFootprint(m: Machine, a: Action)
    requires Enabled(m, a) && InStream(a)
    ensures var n := Next(m, a); n == m.(stream := n.stream, engine := n.engine, peerSignal := n.peerSignal)
  {
  }

  lemma ControlFootprint(m: Machine, a: Action)
    requires Enabled(m, a) && InControl(a)
    ensures var n := Next(m, a);
            n == m.(now := n.now, selfNode := n.selfNode, owed := n.owed, nodeSignal := n.nodeSignal) && m.now <= n.now
  {
  }

  /** Steps of everyone but the receive loop, the reaper and their sweeps. */
  ghost predicate Quiet(a: Action) {
    !InReceiveLoop(a) && !InSweep(a)
  }

  lemma QuietFootprint(m: Machine, a: Action)
    requires Enabled(m, a) && Quiet(a)
    ensures var n := Next(m, a);
            && n.peers == m.peers && n.lock == m.lock && n.recv == m.recv && n.reaper == m.reaper && n.udp == m.udp
            && m.now <= n.now
            && (n.inbox == m.inbox || (m.inbox != [] && n.inbox == m.inbox[1..]))
            && (|n.outbox| <= |m.outbox| || |n.outbox| <= CAPACITY)
  {
    hide Next, Enabled;
    if InFanOut(a) {
      FanOutFootprint(m, a);
    } else if InConsumer(a) {
      ConsumerFootprint(m, a);
    } else if InStream(a) {
      StreamFootprint(m, a);
    } else {
      ControlFootprint(m, a);
    }
  }

  /** What each goroutine's steps can change in the history. */
  lemma ReceiveLoopNotes(m: Machine, h: History, a: Action)
    requires Enabled(m, a) && InReceiveLoop(a)
    ensures var k := Note(m, h, a);
            && k == h.(announced := k.announced, stale := k.stale, told := k.told, granted := k.granted,
                       robbed := k.robbed, leaked := k.leaked, closing := k.closing)
            && (!a.TrackMessage? ==> k.announced == h.announced)
            && (!a.TrackMessage? && !a.EnqueueNode? ==> k.stale == h.stale)
            && (!a.SendReply? ==> k.told == h.told)
            && (!a.OpenPort? ==> k.granted == h.granted)
            && (!a.OpenPort? && !a.NotifyRecv? ==> k.robbed == h.robbed && k.leaked == h.leaked && k.closing == h.closing)
  {
    hide Next, NotificationDue, U.Open;
  }

  lemma SweepNotes(m: Machine, h: History, a: Action)
    requires Enabled(m, a) && InSweep(a)
    ensures var k := Note(m, h, a);
            && k.snap == h.snap
            && (!a.RemoveVictim? ==> k == h.(robbed := k.robbed, leaked := k.leaked, closing := k.closing))
            && (!a.RemoveVictim? && !a.NotifyReap? ==> k == h)
  {
    hide Next;
  }

  lemma QuietNotes(m: Machine, h: History, a: Action)
    requires Enabled(m, a) && Quiet(a)
    ensures var k := Note(m, h, a);
            && k == h.(told := k.told, fanLive := k.fanLive, snap := k.snap)
            && (!InFanOut(a) ==> k.told == h.told && k.fanLive == h.fanLive)
            && (!InStream(a) ==> k.snap == h.snap)
  {
    hide Next;
  }
}
