/** UDP leases follow session life. */
module Leases {
  import opened Overlay
  import opened Pipeline
  import opened Footprints
  import opened Replays
  import U = UdpLeases

  ghost predicate Accounted(h: History, sid: SessionId, port: Port) {
    || ((sid, port) in h.granted && (sid, port) !in h.robbed)
    || (sid, port) in h.leaked
    || (sid, port) in h.closing
  }

  ghost predicate Separate(h: History) {
    h.robbed <= h.granted && h.granted !! h.leaked && h.granted !! h.closing && h.leaked !! h.closing
  }

  /** The port table holds exactly the leases that were granted, minus those a
      late notification took away, plus those opened for a session already gone
      and those about to be closed. */
  ghost predicate LeasesAccounted(m: Machine, h: History) {
    && U.Wellformed(m.udp) && U.Balanced(m.udp)
    && (forall sid, port :: U.Holds(m.udp, sid, port) <==> Accounted(h, sid, port))
    && Separate(h)
    && (forall l :: l in h.granted ==> l.0 in m.peers)
    && (forall l :: l in h.closing ==> NotificationDue(m, l.0))
  }

  ghost predicate SameLeases(s: State, t: State) {
    && t.m.udp == s.m.udp
    && t.h.granted == s.h.granted && t.h.robbed == s.h.robbed && t.h.leaked == s.h.leaked && t.h.closing == s.h.closing
    && s.m.peers.Keys <= t.m.peers.Keys
    && (forall sid :: NotificationDue(s.m, sid) ==> NotificationDue(t.m, sid))
  }

  ghost predicate TouchesLeases(a: Action) {
    a.OpenPort? || a.NotifyRecv? || a.NotifyReap? || a.RemoveVictim?
  }

  lemma LeasesFrameInSweep(s: State, a: Action)
    requires Locking(s.m) && Enabled(s.m, a) && !TouchesLeases(a) && InSweep(a)
    ensures SameLeases(s, Apply(s, a))
  {
  }

  lemma LeasesFrame(s: State, a: Action)
    requires Locking(s.m) && Enabled(s.m, a) && !TouchesLeases(a)
    ensures SameLeases(s, Apply(s, a))
  {
    hide Next, Note, Locking;
    if InReceiveLoop(a) {
      ReceiveLoopFootprint(s.m, a);
      ReceiveLoopNotes(s.m, s.h, a);
    } else if InSweep(a) {
      LeasesFrameInSweep(s, a);
    } else {
      QuietFootprint(s.m, a);
      QuietNotes(s.m, s.h, a);
    }
  }

  lemma AccountedFrame(s: State, t: State)
    requires LeasesAccounted(s.m, s.h) && SameLeases(s, t)
    ensures LeasesAccounted(t.m, t.h)
  {
    hide U.Wellformed, U.Balanced, NotificationDue;
    forall sid, port ensures U.Holds(t.m.udp, sid, port) <==> Accounted(t.h, sid, port) {
      assert U.Holds(s.m.udp, sid, port) <==> Accounted(s.h, sid, port);
    }
  }

  lemma OpenNoted(m: Machine, h: History)
    requires m.recv.RecvOpen? && Separate(h)
    requires forall l :: l in h.granted ==> l.0 in m.peers
    requires forall l :: l in h.closing ==> NotificationDue(m, l.0)
    ensures var k := NoteOpen(m, h, U.Granted);
            && Separate(k)
            && (forall sid, port: Port ::
                  Accounted(k, sid, port) <==> Accounted(h, sid, port) || (sid == m.recv.sid && port == m.recv.port))
  {
    hide NotificationDue;
  }

  lemma AccountedByOpen(s: State, a: Action)
    requires Locking(s.m) && LeasesAccounted(s.m, s.h) && Enabled(s.m, a) && a.OpenPort?
    ensures LeasesAccounted(Apply(s, a).m, Apply(s, a).h)
  {
    hide U.Open, U.Wellformed, U.Balanced, U.Holds, NotificationDue, Locking, Next, Note, Accounted, Separate, NoteOpen;
    var t := Apply(s, a);
    var (sid, port) := (s.m.recv.sid, s.m.recv.port);
    var outcome := U.Open(s.m.udp, sid, port, a.forwarding, a.ready, a.listenOk).1;
    U.OpenGrants(s.m.udp, sid, port, a.forwarding, a.ready, a.listenOk);
    U.OpenBalanced(s.m.udp, sid, port, a.forwarding, a.ready, a.listenOk);
    OpenNoted(s.m, s.h);
    OpenFrame(s, a);
    hide Enabled;
    forall x, p ensures U.Holds(t.m.udp, x, p) <==> Accounted(t.h, x, p) {
      assert U.Holds(s.m.udp, x, p) <==> Accounted(s.h, x, p);
    }
  }

  lemma OpenFrame(s: State, a: Action)
    requires Locking(s.m) && Enabled(s.m, a) && a.OpenPort?
    requires forall l :: l in s.h.granted ==> l.0 in s.m.peers
    requires forall l :: l in s.h.closing ==> NotificationDue(s.m, l.0)
    ensures var t := Apply(s, a);
            var (udp, outcome) := U.Open(s.m.udp, s.m.recv.sid, s.m.recv.port, a.forwarding, a.ready, a.listenOk);
            && t.m.udp == udp
            && t.h == (if outcome == U.Granted then NoteOpen(s.m, s.h, U.Granted) else s.h)
            && (forall l :: l in t.h.granted ==> l.0 in t.m.peers)
            && (forall l :: l in t.h.closing ==> NotificationDue(t.m, l.0))
  {
    assert forall x :: NotificationDue(s.m, x) <==> NotificationDue(Apply(s, a).m, x);
    hide NotificationDue;
  }

  lemma CloseNoted(h: History, sid: SessionId)
    requires Separate(h)
    ensures var k := NoteClosed(h, sid);
            && Separate(k)
            && (forall x, port :: Accounted(k, x, port) <==> Accounted(h, x, port) && x != sid)
            && k.granted == h.granted
            && (forall l :: l in k.closing <==> l in h.closing && l.0 != sid)
  {
  }

  lemma NotifyFrame(s: State, a: Action, sid: SessionId)
    requires Enabled(s.m, a)
    requires (a.NotifyRecv? && sid == s.m.recv.ids[0]) || (a.NotifyReap? && sid == s.m.reaper.ids[0])
    ensures var t := Apply(s, a);
            && t.m.udp == U.CloseSession(s.m.udp, sid) && t.h == NoteClosed(s.h, sid) && t.m.peers == s.m.peers
            && forall x :: NotificationDue(s.m, x) && x != sid ==> NotificationDue(t.m, x)
  {
    hide U.CloseSession, NoteClosed;
  }

  lemma HoldsAfterClose(t: U.Table, h: History, sid: SessionId)
    requires Separate(h) && forall x, port :: U.Holds(t, x, port) <==> Accounted(h, x, port)
    ensures forall x, port :: U.Holds(U.CloseSession(t, sid), x, port) <==> Accounted(NoteClosed(h, sid), x, port)
  {
    U.CloseSessionReleases(t, sid);
    CloseNoted(h, sid);
    hide U.CloseSession, U.Holds, Accounted, NoteClosed;
    forall x, port ensures U.Holds(U.CloseSession(t, sid), x, port) <==> Accounted(NoteClosed(h, sid), x, port) {
      assert U.Holds(t, x, port) <==> Accounted(h, x, port);
    }
  }

  lemma AccountedByClose(m: Machine, h: History, n: Machine, sid: SessionId)
    requires LeasesAccounted(m, h)
    requires n.udp == U.CloseSession(m.udp, sid) && n.peers == m.peers
    requires forall x :: NotificationDue(m, x) && x != sid ==> NotificationDue(n, x)
    ensures LeasesAccounted(n, NoteClosed(h, sid))
  {
    hide NotificationDue;
    U.CloseSessionWellformed(m.udp, sid);
    U.CloseSessionBalanced(m.udp, sid);
    HoldsAfterClose(m.udp, h, sid);
    CloseNoted(h, sid);
    hide NoteClosed, U.CloseSession, U.Wellformed, U.Balanced, U.Holds, Accounted, Separate;
  }

  lemma AccountedByNotify(s: State, a: Action, sid: SessionId)
    requires LeasesAccounted(s.m, s.h) && Enabled(s.m, a)
    requires (a.NotifyRecv? && sid == s.m.recv.ids[0]) || (a.NotifyReap? && sid == s.m.reaper.ids[0])
    ensures LeasesAccounted(Apply(s, a).m, Apply(s, a).h)
  {
    NotifyFrame(s, a, sid);
    hide Next, Note, LeasesAccounted, NoteClosed, NotificationDue;
    AccountedByClose(s.m, s.h, Apply(s, a).m, sid);
  }

  lemma AccountedByRemoval(s: State, a: Action)
    requires Locking(s.m) && LeasesAccounted(s.m, s.h) && Enabled(s.m, a) && a.RemoveVictim?
    ensures LeasesAccounted(Apply(s, a).m, Apply(s, a).h)
  {
    var t := Apply(s, a);
    assert forall x :: NotificationDue(s.m, x) || x == a.sid ==> NotificationDue(t.m, x);
    assert t.m.peers.Keys == s.m.peers.Keys - {a.sid} && t.m.udp == s.m.udp && t.h == NoteRemoval(s.h, a.sid);
    hide U.Wellformed, U.Balanced, U.Holds, NotificationDue, Locking, Next, Note, Enabled;
    forall x, port ensures U.Holds(t.m.udp, x, port) <==> Accounted(t.h, x, port) {
      assert U.Holds(s.m.udp, x, port) <==> Accounted(s.h, x, port);
    }
  }

  lemma LeasesAccountedKept(s: State, a: Action)
    requires Locking(s.m) && LeasesAccounted(s.m, s.h) && Enabled(s.m, a)
    ensures LeasesAccounted(Apply(s, a).m, Apply(s, a).h)
  {
    hide Next, Note, LeasesAccounted;
    if a.OpenPort? {
      AccountedByOpen(s, a);
    } else if a.NotifyRecv? {
      AccountedByNotify(s, a, s.m.recv.ids[0]);
    } else if a.NotifyReap? {
      AccountedByNotify(s, a, s.m.reaper.ids[0]);
    } else if a.RemoveVictim? {
      AccountedByRemoval(s, a);
    } else {
      LeasesFrame(s, a);
      AccountedFrame(s, Apply(s, a));
    }
  }
}
