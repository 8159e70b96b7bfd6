/** The queue of updates refines a simple map: what each live session last
    announced. */
module Replays {
  import opened Wrappers
  import opened Overlay
  import opened PeerStores
  import opened Pipeline
  import opened Footprints
  import U = UdpLeases

  /** The mutex is held exactly while its owner sweeps, the channels stay within
      their capacity, and nothing carries an empty session ID. */
  ghost predicate Locking(m: Machine) {
    && (m.lock.Some? && m.lock.value.owner == ReceiveLoop <==> m.recv.RecvSweep?)
    && (m.lock.Some? && m.lock.value.owner == Reaper <==> m.reaper.ReapSweep?)
    && (m.lock.Some? ==> m.lock.value.victims <= m.peers.Keys)
    && (m.lock.Some? && m.lock.value.sending.Some? ==> m.lock.value.sending.value !in m.peers && m.lock.value.sending.value != "")
    && |m.inbox| <= CAPACITY && |m.outbox| <= CAPACITY
    && "" !in m.peers
    && (m.recv.RecvEnqueue? ==> m.recv.sid != "")
    && (forall i :: 0 <= i < |m.inbox| ==> m.inbox[i].id != "")
    && (m.recv.RecvNotify? ==> m.recv.ids != [])
    && (m.reaper.ReapNotify? ==> m.reaper.ids != [])
  }

  lemma LockingKeptByTrack(m: Machine)
    requires Locking(m) && Enabled(m, TrackMessage)
    ensures Locking(Next(m, TrackMessage))
  {
    TrackShapes(m);
    hide Next;
  }

  lemma LockingKeptByReceiveLoop(m: Machine, a: Action)
    requires Locking(m) && Enabled(m, a) && InReceiveLoop(a) && !a.TrackMessage?
    ensures Locking(Next(m, a))
  {
    hide U.Open, U.CloseSession;
  }

  lemma LockingKeptBySweep(m: Machine, a: Action)
    requires Locking(m) && Enabled(m, a) && InSweep(a)
    ensures Locking(Next(m, a))
  {
  }

  lemma LockingKept(m: Machine, a: Action)
    requires Locking(m) && Enabled(m, a)
    ensures Locking(Next(m, a))
  {
    hide Next, Enabled;
    if a.TrackMessage? {
      LockingKeptByTrack(m);
    } else if InReceiveLoop(a) {
      LockingKeptByReceiveLoop(m, a);
    } else if InSweep(a) {
      LockingKeptBySweep(m, a);
    } else {
      QuietFootprint(m, a);
    }
  }

  /** Updates the consumer has still to apply, oldest first. */
  ghost function Pending(m: Machine): seq<PeerUpdate> {
    (if m.cons.ConsApply? then [m.cons.update] else []) + m.inbox
  }

  /** The store once everything pending is applied. */
  ghost function Settled(m: Machine): Store {
    Replay(m.store, Pending(m))
  }

  /** The session's next update is on its way into the channel. */
  ghost predicate InTransit(m: Machine, sid: SessionId) {
    Sending(m, sid) || (m.recv.RecvEnqueue? && m.recv.sid == sid && sid in m.peers)
  }

  ghost predicate Agrees(m: Machine, h: History, sid: SessionId) {
    && (sid in Settled(m) <==> sid in h.announced || sid in h.stale)
    && (sid in h.announced ==> Settled(m)[sid] == h.announced[sid])
  }

  ghost predicate Refines(m: Machine, h: History) {
    && h.announced.Keys <= m.peers.Keys
    && h.announced.Keys !! h.stale
    && (forall sid :: Sending(m, sid) ==> sid !in h.stale)
    && (m.recv.RecvEnqueue? && m.recv.sid in m.peers ==>
          m.recv.sid in h.announced && h.announced[m.recv.sid] == m.recv.node)
    && forall sid :: InTransit(m, sid) || Agrees(m, h, sid)
  }

  /** What most steps leave alone. */
  ghost predicate SameSessions(s: State, t: State) {
    && t.m.peers == s.m.peers && t.h.announced == s.h.announced && t.h.stale == s.h.stale
    && ((t.m.lock.Some? && t.m.lock.value.sending.Some?) || (s.m.lock.Some? && s.m.lock.value.sending.Some?) ==>
          t.m.lock == s.m.lock)
    && (t.m.recv.RecvEnqueue? || s.m.recv.RecvEnqueue? ==> t.m.recv == s.m.recv)
  }

  ghost predicate TouchesSessions(a: Action) {
    a.TrackMessage? || a.EnqueueNode? || a.RemoveVictim? || a.SendRemoval?
  }

  lemma SessionsFrame(s: State, a: Action)
    requires Locking(s.m) && Enabled(s.m, a) && !TouchesSessions(a)
    ensures SameSessions(s, Apply(s, a))
  {
    hide Next, Note;
    if InReceiveLoop(a) {
      ReceiveLoopFootprint(s.m, a);
      ReceiveLoopNotes(s.m, s.h, a);
    } else if InSweep(a) {
      SweepFootprint(s.m, a);
      SweepNotes(s.m, s.h, a);
    } else {
      QuietFootprint(s.m, a);
      QuietNotes(s.m, s.h, a);
    }
  }

  ghost predicate TouchesQueue(a: Action) {
    a.EnqueueNode? || a.SendRemoval? || a.TakeUpdate? || a.ApplyTaken?
  }

  ghost predicate SameQueue(m: Machine, n: Machine) {
    && n.inbox == m.inbox && n.store == m.store
    && (m.cons.ConsApply? || n.cons.ConsApply? ==> n.cons == m.cons)
  }

  lemma QueueFrame(m: Machine, a: Action)
    requires Enabled(m, a) && !TouchesQueue(a)
    ensures SameQueue(m, Next(m, a))
  {
    hide Next;
    if InReceiveLoop(a) {
      ReceiveLoopFootprint(m, a);
    } else if InSweep(a) {
      SweepFootprint(m, a);
    } else if InFanOut(a) {
      FanOutFootprint(m, a);
    } else if InConsumer(a) {
      ConsumerFootprint(m, a);
    } else if InStream(a) {
      StreamFootprint(m, a);
    } else {
      ControlFootprint(m, a);
    }
  }

  lemma SettledAppend(m: Machine, n: Machine, u: PeerUpdate)
    requires n.store == m.store && n.cons == m.cons && n.inbox == m.inbox + [u]
    ensures Settled(n) == ApplyUpdate(Settled(m), u)
  {
    assert Pending(n) == Pending(m) + [u];
    ReplayAppend(m.store, Pending(m), u);
  }

  lemma SettledTaken(m: Machine, a: Action)
    requires Locking(m) && Enabled(m, a) && (a.TakeUpdate? || a.ApplyTaken?)
    ensures Settled(Next(m, a)) == Settled(m)
  {
    if a.TakeUpdate? {
      assert Pending(Next(m, a)) == Pending(m);
    } else {
      assert Pending(m)[1..] == m.inbox == Pending(Next(m, a));
    }
  }

  lemma SettledMore(m: Machine, a: Action)
    requires Locking(m) && Enabled(m, a) && (a.EnqueueNode? || a.SendRemoval?)
    ensures Settled(Next(m, a)) == ApplyUpdate(Settled(m), if a.EnqueueNode? then PeerUpdate(m.recv.sid, Some(m.recv.node))
                                                           else PeerUpdate(m.lock.value.sending.value, None))
  {
    hide Settled;
    SettledAppend(m, Next(m, a), if a.EnqueueNode? then PeerUpdate(m.recv.sid, Some(m.recv.node))
                                 else PeerUpdate(m.lock.value.sending.value, None));
  }

  /** What a step does to the settled store. */
  lemma SettledStep(m: Machine, a: Action)
    requires Locking(m) && Enabled(m, a)
    ensures Settled(Next(m, a)) ==
            match a
            case EnqueueNode => Settled(m)[m.recv.sid := m.recv.node]
            case SendRemoval => Settled(m) - {m.lock.value.sending.value}
            case _ => Settled(m)
  {
    hide Next, Replay;
    if a.EnqueueNode? || a.SendRemoval? {
      hide Settled;
      SettledMore(m, a);
    } else if TouchesQueue(a) {
      hide Settled;
      SettledTaken(m, a);
    } else {
      QueueFrame(m, a);
    }
  }

  lemma RefinesFrame(s: State, t: State)
    requires Refines(s.m, s.h) && SameSessions(s, t) && Settled(t.m) == Settled(s.m)
    ensures Refines(t.m, t.h)
  {
    hide Settled;
    forall sid ensures InTransit(t.m, sid) || Agrees(t.m, t.h, sid) {
      assert InTransit(s.m, sid) || Agrees(s.m, s.h, sid);
    }
  }

  /** An accepted message leaves every other session as it was. */
  lemma RefinesKeptByAcceptance(s: State, t: State, sid: SessionId, node: Option<Node>)
    requires Refines(s.m, s.h) && Settled(t.m) == Settled(s.m)
    requires s.m.lock == None && t.m.lock == None && !s.m.recv.RecvEnqueue?
    requires t.m.peers.Keys == s.m.peers.Keys + {sid}
    requires if node.None? then !t.m.recv.RecvEnqueue? && t.h == s.h
             else
               && t.m.recv.RecvEnqueue? && t.m.recv.sid == sid && t.m.recv.node == node.value
               && t.h.announced == s.h.announced[sid := node.value] && t.h.stale == s.h.stale - {sid}
    ensures Refines(t.m, t.h)
  {
    hide Settled;
    forall x ensures InTransit(t.m, x) || Agrees(t.m, t.h, x) {
      assert InTransit(s.m, x) || Agrees(s.m, s.h, x);
    }
  }

  lemma TrackEffect(s: State)
    requires Locking(s.m) && Enabled(s.m, TrackMessage)
    ensures var t := Apply(s, TrackMessage);
            || SameSessions(s, t)
            || (&& t.m.lock == None && t.m.peers.Keys == s.m.peers.Keys + {s.m.recv.sid}
                && if s.m.recv.body.NodeUpdate? then
                     && t.m.recv == RecvEnqueue(s.m.recv.sid, s.m.recv.body.node, s.m.recv.at)
                     && t.h.announced == s.h.announced[s.m.recv.sid := s.m.recv.body.node]
                     && t.h.stale == s.h.stale - {s.m.recv.sid}
                   else !t.m.recv.RecvEnqueue? && t.h == s.h)
  {
  }

  lemma RefinesKeptByTrack(s: State, a: Action)
    requires Locking(s.m) && Refines(s.m, s.h) && Enabled(s.m, a) && a.TrackMessage?
    ensures Refines(Apply(s, a).m, Apply(s, a).h)
  {
    SettledStep(s.m, a);
    TrackEffect(s);
    hide Settled, Locking, Next, Note, Refines;
    var t := Apply(s, a);
    if SameSessions(s, t) {
      RefinesFrame(s, t);
    } else {
      var body := s.m.recv.body;
      RefinesKeptByAcceptance(s, t, s.m.recv.sid, if body.NodeUpdate? then Some(body.node) else None);
    }
  }

  lemma RefinesKeptByEnqueue(s: State, a: Action)
    requires Locking(s.m) && Refines(s.m, s.h) && Enabled(s.m, a) && a.EnqueueNode?
    ensures Refines(Apply(s, a).m, Apply(s, a).h)
  {
    SettledStep(s.m, a);
    hide Settled;
    var t := Apply(s, a);
    forall sid ensures InTransit(t.m, sid) || Agrees(t.m, t.h, sid) {
      assert InTransit(s.m, sid) || Agrees(s.m, s.h, sid);
    }
  }

  lemma RefinesKeptByRemoval(s: State, a: Action)
    requires Locking(s.m) && Refines(s.m, s.h) && Enabled(s.m, a) && (a.RemoveVictim? || a.SendRemoval?)
    ensures Refines(Apply(s, a).m, Apply(s, a).h)
  {
    SettledStep(s.m, a);
    hide Settled;
    var t := Apply(s, a);
    forall sid ensures InTransit(t.m, sid) || Agrees(t.m, t.h, sid) {
      assert InTransit(s.m, sid) || Agrees(s.m, s.h, sid);
    }
  }

  /** Each step keeps the refinement. */
  lemma RefinesKept(s: State, a: Action)
    requires Locking(s.m) && Refines(s.m, s.h) && Enabled(s.m, a)
    ensures Refines(Apply(s, a).m, Apply(s, a).h)
  {
    hide Refines, Next, Note, Locking;
    if a.TrackMessage? {
      RefinesKeptByTrack(s, a);
    } else if a.EnqueueNode? {
      RefinesKeptByEnqueue(s, a);
    } else if a.RemoveVictim? || a.SendRemoval? {
      RefinesKeptByRemoval(s, a);
    } else {
      SettledStep(s.m, a);
      SessionsFrame(s, a);
      RefinesFrame(s, Apply(s, a));
    }
  }
}
