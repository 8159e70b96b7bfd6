/** Every live session is sent the newest node, and the newest node is the one
    the control server stored last. */
module NewestNode {
  import opened Wrappers
  import opened Overlay
  import opened Pipeline
  import opened Footprints
  import opened Replays

  /** The session has been sent the node in `lastNode`, or a step still to come
      is bound to send it. */
  ghost predicate Informed(m: Machine, h: History, sid: SessionId) {
    || sid in h.told
    || m.fan.FanSnapshot?
    || (m.fan.FanSend? && sid in m.fan.targets && sid in h.fanLive)
    || (m.recv.RecvLoad? && m.recv.sid == sid)
    || (m.recv.RecvReply? && m.recv.sid == sid && Carried(m.recv.reply) == m.lastNode)
  }

  ghost predicate NobodyMissed(m: Machine, h: History) {
    && h.told <= m.peers.Keys && h.fanLive <= m.peers.Keys
    && (m.fan.FanSnapshot? || m.fan.FanSend? ==> m.lastNode == Some(m.fan.node))
    && (m.lastNode.Some? ==> forall sid :: sid in m.peers ==> Informed(m, h, sid))
  }

  ghost predicate SameAudience(s: State, t: State) {
    && t.m.peers.Keys == s.m.peers.Keys && t.m.lastNode == s.m.lastNode && t.m.fan == s.m.fan
    && t.h.told == s.h.told && t.h.fanLive == s.h.fanLive
    && (s.m.recv.RecvLoad? || s.m.recv.RecvReply? ==> t.m.recv == s.m.recv)
  }

  ghost predicate TouchesAudience(a: Action) {
    || a.TrackMessage? || a.LoadLastNode? || a.SendReply? || a.RemoveVictim?
    || a.TakeOut? || a.StoreLast? || a.SnapshotPeers? || a.SendNode? || a.EndFanOut?
  }

  lemma AudienceFrame(s: State, a: Action)
    requires Locking(s.m) && Enabled(s.m, a) && !TouchesAudience(a)
    ensures SameAudience(s, Apply(s, a))
  {
    hide Next, Note;
    if InReceiveLoop(a) {
      ReceiveLoopFootprint(s.m, a);
      ReceiveLoopNotes(s.m, s.h, a);
    } else if InSweep(a) {
      SweepFootprint(s.m, a);
      SweepNotes(s.m, s.h, a);
    } else {
      QuietNotes(s.m, s.h, a);
      if InConsumer(a) {
        ConsumerFootprint(s.m, a);
      } else if InStream(a) {
        StreamFootprint(s.m, a);
      } else {
        ControlFootprint(s.m, a);
      }
    }
  }

  lemma NobodyMissedFrame(s: State, t: State)
    requires NobodyMissed(s.m, s.h) && SameAudience(s, t)
    ensures NobodyMissed(t.m, t.h)
  {
    forall sid | t.m.lastNode.Some? && sid in t.m.peers ensures Informed(t.m, t.h, sid) {
      assert Informed(s.m, s.h, sid);
    }
  }

  /** The receive loop inserts a session before it loads the node to reply
      with. */
  lemma NobodyMissedByReceiveLoop(s: State, a: Action)
    requires NobodyMissed(s.m, s.h) && Enabled(s.m, a) && (a.LoadLastNode? || a.SendReply?)
    ensures NobodyMissed(Apply(s, a).m, Apply(s, a).h)
  {
    var t := Apply(s, a);
    forall sid | t.m.lastNode.Some? && sid in t.m.peers ensures Informed(t.m, t.h, sid) {
      assert Informed(s.m, s.h, sid);
    }
  }

  lemma NobodyMissedByTrack(s: State)
    requires NobodyMissed(s.m, s.h) && Enabled(s.m, TrackMessage)
    ensures NobodyMissed(Apply(s, TrackMessage).m, Apply(s, TrackMessage).h)
  {
    var t := Apply(s, TrackMessage);
    TrackShapes(s.m);
    ReceiveLoopNotes(s.m, s.h, TrackMessage);
    hide Next, Note;
    forall sid | t.m.lastNode.Some? && sid in t.m.peers ensures Informed(t.m, t.h, sid) {
      if sid in s.m.peers {
        assert Informed(s.m, s.h, sid);
      }
    }
  }

  /** The fan-out stores the node before it reads the peer table. */
  lemma NobodyMissedByFanOut(s: State, a: Action)
    requires NobodyMissed(s.m, s.h) && Enabled(s.m, a)
    requires a.TakeOut? || a.StoreLast? || a.SnapshotPeers? || a.SendNode? || a.EndFanOut? || a.RemoveVictim?
    ensures NobodyMissed(Apply(s, a).m, Apply(s, a).h)
  {
    var t := Apply(s, a);
    forall sid | t.m.lastNode.Some? && sid in t.m.peers ensures Informed(t.m, t.h, sid) {
      if s.m.lastNode.Some? {
        assert Informed(s.m, s.h, sid);
      }
    }
  }

  lemma NobodyMissedKept(s: State, a: Action)
    requires Locking(s.m) && NobodyMissed(s.m, s.h) && Enabled(s.m, a)
    ensures NobodyMissed(Apply(s, a).m, Apply(s, a).h)
  {
    hide Next, Note, NobodyMissed, Enabled;
    if a.TrackMessage? {
      NobodyMissedByTrack(s);
    } else if a.LoadLastNode? || a.SendReply? {
      NobodyMissedByReceiveLoop(s, a);
    } else if TouchesAudience(a) {
      NobodyMissedByFanOut(s, a);
    } else {
      AudienceFrame(s, a);
      NobodyMissedFrame(s, Apply(s, a));
    }
  }

  /** The newest of the nodes between the consumer and `lastNode`. */
  ghost function Latest(m: Machine): Option<Node> {
    if m.cons.ConsSend? then Some(m.cons.node)
    else if m.outbox != [] then Some(m.outbox[|m.outbox| - 1])
    else if m.fan.FanStore? then Some(m.fan.node)
    else m.lastNode
  }

  /** The engine's own node is on its way to the fan-out, or a wake-up that
      will fetch it is. */
  ghost predicate SelfOnItsWay(m: Machine) {
    || m.selfNode.None?
    || m.nodeSignal || m.owed > 0 || m.cons.ConsLoad?
    || Latest(m) == m.selfNode
  }

  lemma SelfOnItsWayByConsumer(m: Machine, a: Action)
    requires SelfOnItsWay(m) && Enabled(m, a) && InConsumer(a)
    ensures SelfOnItsWay(Next(m, a))
  {
  }

  lemma SelfOnItsWayByFanOut(m: Machine, a: Action)
    requires SelfOnItsWay(m) && Enabled(m, a) && (InFanOut(a) || InControl(a))
    ensures SelfOnItsWay(Next(m, a))
  {
  }

  lemma SelfOnItsWayKept(m: Machine, a: Action)
    requires SelfOnItsWay(m) && Enabled(m, a)
    ensures SelfOnItsWay(Next(m, a))
  {
    hide Next, Enabled;
    if InReceiveLoop(a) {
      ReceiveLoopFootprint(m, a);
    } else if InSweep(a) {
      SweepFootprint(m, a);
    } else if InConsumer(a) {
      SelfOnItsWayByConsumer(m, a);
    } else if InStream(a) {
      StreamFootprint(m, a);
    } else {
      SelfOnItsWayByFanOut(m, a);
    }
  }
}
