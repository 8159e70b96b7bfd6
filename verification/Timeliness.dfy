/** What the two assumptions on a run buy: a step that follows its message in
    time finds the session still live, and session IDs that are not reused keep
    late notifications harmless. */
module Timeliness {
  import opened Overlay
  import opened Pipeline
  import opened Footprints
  import opened Replays
  import U = UdpLeases

  /** The session was accepted at `at` and has not been heard from or removed
      since, unless the whole inactivity timeout has passed. */
  ghost predicate LiveSince(m: Machine, sid: SessionId, at: Time) {
    (sid in m.peers && m.peers[sid].lastSeen == at) || at + INACTIVE_TIMEOUT <= m.now
  }

  ghost predicate Clocked(m: Machine) {
    && (m.reaper.ReapTick? ==> m.reaper.tick <= m.now)
    && (m.lock.Some? && m.lock.value.owner == Reaper ==>
          forall v :: v in m.lock.value.victims ==> v in m.peers && m.peers[v].lastSeen + INACTIVE_TIMEOUT <= m.now)
    && (m.recv.RecvEnqueue? ==> LiveSince(m, m.recv.sid, m.recv.at))
    && (m.recv.RecvOpen? ==> LiveSince(m, m.recv.sid, m.recv.at))
  }

  lemma ClockedByTrack(m: Machine)
    requires Locking(m) && Clocked(m) && Enabled(m, TrackMessage)
    ensures Clocked(Next(m, TrackMessage))
  {
    TrackShapes(m);
    hide Next;
  }

  lemma LocksForItself(m: Machine, a: Action)
    requires Enabled(m, a) && InReceiveLoop(a) && !a.TrackMessage?
    ensures Next(m, a).lock != m.lock ==> Next(m, a).lock.Some? && Next(m, a).lock.value.owner == ReceiveLoop
  {
    hide U.Open, U.CloseSession;
  }

  lemma ClockedByReceiveLoop(m: Machine, a: Action)
    requires Locking(m) && Clocked(m) && Enabled(m, a) && InReceiveLoop(a)
    ensures Clocked(Next(m, a))
  {
    if a.TrackMessage? {
      ClockedByTrack(m);
    } else {
      ReceiveLoopFootprint(m, a);
      LocksForItself(m, a);
      hide Next, Enabled;
    }
  }

  lemma ClockedBySweep(m: Machine, a: Action)
    requires Locking(m) && Clocked(m) && Enabled(m, a) && InSweep(a)
    ensures Clocked(Next(m, a))
  {
  }

  lemma ClockedKept(m: Machine, a: Action)
    requires Locking(m) && Clocked(m) && Enabled(m, a)
    ensures Clocked(Next(m, a))
  {
    hide Next, Enabled, Locking;
    if InReceiveLoop(a) {
      ClockedByReceiveLoop(m, a);
    } else if InSweep(a) {
      ClockedBySweep(m, a);
    } else {
      QuietFootprint(m, a);
    }
  }

  /** A timely step acts for a session that is still live. */
  lemma TimelyStepFindsSession(m: Machine, a: Action)
    requires Clocked(m) && Enabled(m, a) && Timely(m, a) && (a.EnqueueNode? || a.OpenPort?)
    ensures m.recv.sid in m.peers
  {
  }

  /** Only an enqueue can make a session stale. */
  lemma StaleOnlyByEnqueue(s: State, a: Action)
    requires Enabled(s.m, a) && (a.EnqueueNode? ==> s.m.recv.sid in s.m.peers)
    ensures Apply(s, a).h.stale <= s.h.stale
  {
    hide Next;
  }

  lemma LeakedOnlyByOpen(s: State, a: Action)
    requires Enabled(s.m, a) && (a.OpenPort? ==> s.m.recv.sid in s.m.peers)
    ensures Apply(s, a).h.leaked <= s.h.leaked
  {
    hide Next;
  }

  /** Nobody who is live is about to be notified as closed. */
  ghost predicate NoLateNotification(s: State) {
    && s.h.departed !! s.m.peers.Keys
    && (forall sid :: NotificationDue(s.m, sid) ==> sid !in s.m.peers)
    && (s.m.lock.Some? ==> forall sid :: Sending(s.m, sid) || sid in s.m.lock.value.removed ==> sid in s.h.departed)
    && (s.m.reaper.ReapNotify? ==> forall sid :: sid in s.m.reaper.ids ==> sid in s.h.departed)
  }

  lemma NoLateNotificationByTrack(s: State, a: Action)
    requires Locking(s.m) && NoLateNotification(s) && Enabled(s.m, a) && HelloOnce(s, a) && a.TrackMessage?
    ensures NoLateNotification(Apply(s, a))
  {
    TrackShapes(s.m);
    SameDeparted(s, a);
    hide Next, Note;
  }

  lemma SameDeparted(s: State, a: Action)
    requires Enabled(s.m, a) && a.TrackMessage?
    ensures Apply(s, a).h.departed == s.h.departed
  {
    ReceiveLoopNotes(s.m, s.h, a);
    hide Next, Note;
  }

  lemma NoLateNotificationByReceiveLoop(s: State, a: Action)
    requires Locking(s.m) && NoLateNotification(s) && Enabled(s.m, a) && InReceiveLoop(a) && !a.TrackMessage?
    ensures NoLateNotification(Apply(s, a))
  {
  }

  lemma NoLateNotificationBySweep(s: State, a: Action)
    requires Locking(s.m) && NoLateNotification(s) && Enabled(s.m, a)
    requires a.RemoveVictim? || a.SendRemoval? || a.EndSweep?
    ensures NoLateNotification(Apply(s, a))
  {
  }

  ghost predicate InReaper(a: Action) {
    a.Tick? || a.LockExpiry? || a.NotifyReap?
  }

  lemma NoLateNotificationByReaper(s: State, a: Action)
    requires Locking(s.m) && NoLateNotification(s) && Enabled(s.m, a) && InReaper(a)
    ensures NoLateNotification(Apply(s, a))
  {
  }

  lemma NoLateNotificationElsewhere(s: State, a: Action)
    requires NoLateNotification(s) && Enabled(s.m, a) && Quiet(a)
    ensures NoLateNotification(Apply(s, a))
  {
    hide Next, Note, Enabled;
    QuietFootprint(s.m, a);
    QuietNotes(s.m, s.h, a);
  }

  lemma NoLateNotificationKept(s: State, a: Action)
    requires Locking(s.m) && NoLateNotification(s) && Enabled(s.m, a) && HelloOnce(s, a)
    ensures NoLateNotification(Apply(s, a))
  {
    hide Next, Note, NotificationDue, NoLateNotification;
    if a.TrackMessage? {
      NoLateNotificationByTrack(s, a);
    } else if InReceiveLoop(a) {
      NoLateNotificationByReceiveLoop(s, a);
    } else if a.RemoveVictim? || a.SendRemoval? || a.EndSweep? {
      NoLateNotificationBySweep(s, a);
    } else if InReaper(a) {
      NoLateNotificationByReaper(s, a);
    } else {
      NoLateNotificationElsewhere(s, a);
    }
  }

  lemma RobbedOnlyByLateNotification(s: State, a: Action)
    requires NoLateNotification(s) && Enabled(s.m, a) && (forall l :: l in s.h.granted ==> l.0 in s.m.peers)
    ensures Apply(s, a).h.robbed <= s.h.robbed
  {
    hide Next;
  }
}
