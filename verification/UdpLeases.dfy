/** The host's shared UDP listeners: one listener per port, leased by sessions. */
module UdpLeases {
  import opened Overlay

  datatype PortState = PortState(listener: nat, sessions: set<SessionId>)

  /** The port table. Listeners are numbered in the order of the listen calls;
      `closed` collects the listeners whose close was called, `closes` counts
      the calls. */
  datatype Table = Table(ports: map<Port, PortState>, listens: nat, closed: set<nat>, closes: nat)

  const EMPTY := Table(map[], 0, {}, 0)

  datatype Outcome = Granted | Disabled | Unavailable | ListenFailed

  ghost predicate Holds(t: Table, sid: SessionId, port: Port) {
    port in t.ports && sid in t.ports[port].sessions
  }

  /** Every table entry has a holder and an open listener of its own. */
  ghost predicate Wellformed(t: Table) {
    && (forall p :: p in t.ports ==>
          t.ports[p].sessions != {} && t.ports[p].listener < t.listens && t.ports[p].listener !in t.closed)
    && (forall p, q :: p in t.ports && q in t.ports && p != q ==> t.ports[p].listener != t.ports[q].listener)
    && (forall l :: l in t.closed ==> l < t.listens)
  }

  /** No listener was closed twice, and listens minus closes is the table size. */
  ghost predicate Balanced(t: Table) {
    && t.closes == |t.closed|
    && t.listens == |t.ports| + t.closes
  }

  function Open(t: Table, sid: SessionId, port: Port, forwarding: bool, ready: bool, listenOk: bool): (Table, Outcome) {
    if !forwarding then (t, Disabled)
    else if !ready then (t, Unavailable)
    else if port in t.ports then
      var s := t.ports[port];
      (t.(ports := t.ports[port := s.(sessions := s.sessions + {sid})]), Granted)
    else if !listenOk then (t, ListenFailed)
    else (t.(ports := t.ports[port := PortState(t.listens, {sid})], listens := t.listens + 1), Granted)
  }

  /** The ports whose only holder is `sid`. */
  function Dropped(t: Table, sid: SessionId): set<Port> {
    set p | p in t.ports && t.ports[p].sessions - {sid} == {}
  }

  function Listeners(t: Table, ports: set<Port>): set<nat>
    requires ports <= t.ports.Keys
  {
    set p | p in ports :: t.ports[p].listener
  }

  /** The table after closing the listeners of `gone` and dropping their entries. */
  function Without(t: Table, gone: set<Port>): Table
    requires gone <= t.ports.Keys
  {
    t.(ports := t.ports - gone, closed := t.closed + Listeners(t, gone), closes := t.closes + |gone|)
  }

  /** The table once the ports in `done` were visited to end a session's leases. */
  function Released(t: Table, sid: SessionId, done: set<Port>): Table {
    var gone := Dropped(t, sid) * done;
    Without(t, gone).(
    ports := map p | p in t.ports && p !in gone ::
      if p in done then t.ports[p].(sessions := t.ports[p].sessions - {sid}) else t.ports[p])
  }

  /** Ends every lease of a session and closes the listeners left without holder. */
  function CloseSession(t: Table, sid: SessionId): Table {
    Released(t, sid, t.ports.Keys)
  }

  function CloseAll(t: Table): Table {
    Without(t, t.ports.Keys)
  }

  lemma {:induction false} ListenersInjective(t: Table, ports: set<Port>)
    requires Wellformed(t) && ports <= t.ports.Keys
    ensures |Listeners(t, ports)| == |ports|
  {
    if ports != {} {
      var p :| p in ports;
      ListenersInjective(t, ports - {p});
      assert Listeners(t, ports) == Listeners(t, ports - {p}) + {t.ports[p].listener};
    }
  }

  lemma KeysSplit<V, W>(old_: map<Port, V>, new_: map<Port, W>, gone: set<Port>)
    requires gone <= old_.Keys && new_.Keys == old_.Keys - gone
    ensures |new_| == |old_| - |gone|
  {
    assert |new_| == |new_.Keys| && |old_| == |old_.Keys|;
    assert old_.Keys == new_.Keys + gone;
  }

  /** A granted open makes the session a holder of that port and changes no
      other lease; a refused open changes nothing. */
  lemma OpenGrants(t: Table, sid: SessionId, port: Port, forwarding: bool, ready: bool, listenOk: bool)
    requires Wellformed(t)
    ensures var (u, outcome) := Open(t, sid, port, forwarding, ready, listenOk);
            && Wellformed(u)
            && (outcome == Granted <==> forwarding && ready && (port in t.ports || listenOk))
            && (outcome == Disabled <==> !forwarding)
            && (outcome == Unavailable <==> forwarding && !ready)
            && (outcome != Granted ==> u == t)
            && (outcome == Granted ==> forall s, p :: Holds(u, s, p) <==> Holds(t, s, p) || (s == sid && p == port))
  {
  }

  lemma OpenBalanced(t: Table, sid: SessionId, port: Port, forwarding: bool, ready: bool, listenOk: bool)
    requires Balanced(t)
    ensures Balanced(Open(t, sid, port, forwarding, ready, listenOk).0)
  {
    var u := Open(t, sid, port, forwarding, ready, listenOk).0;
    if u.listens == t.listens {
      assert u.ports.Keys == t.ports.Keys;
    } else {
      assert u.ports.Keys == t.ports.Keys + {port};
    }
    assert |u.ports| == |u.ports.Keys| && |t.ports| == |t.ports.Keys|;
  }

  lemma CloseSessionPorts(t: Table, sid: SessionId, p: Port)
    ensures p in CloseSession(t, sid).ports ==>
              p in t.ports && CloseSession(t, sid).ports[p] == t.ports[p].(sessions := t.ports[p].sessions - {sid})
    ensures p in CloseSession(t, sid).ports <==> exists s :: s != sid && Holds(t, s, p)
  {
    if s :| s != sid && Holds(t, s, p) {
      assert s in t.ports[p].sessions - {sid};
      assert p in CloseSession(t, sid).ports;
    } else if p in CloseSession(t, sid).ports {
      assert t.ports[p].sessions - {sid} != {};
      var s :| s in t.ports[p].sessions - {sid};
      assert Holds(t, s, p);
    }
  }

  /** Closing a session ends exactly its own leases. */
  lemma CloseSessionReleases(t: Table, sid: SessionId)
    ensures forall s, p :: Holds(CloseSession(t, sid), s, p) <==> Holds(t, s, p) && s != sid
  {
    forall s, p ensures Holds(CloseSession(t, sid), s, p) <==> Holds(t, s, p) && s != sid {
      CloseSessionPorts(t, sid, p);
    }
  }

  lemma CloseSessionWellformed(t: Table, sid: SessionId)
    requires Wellformed(t)
    ensures Wellformed(CloseSession(t, sid))
  {
    var u := CloseSession(t, sid);
    forall p | p in u.ports
      ensures u.ports[p].sessions != {} && u.ports[p].listener == t.ports[p].listener && u.ports[p].listener !in u.closed
    {
      CloseSessionPorts(t, sid, p);
    }
  }

  lemma WithoutBalanced(t: Table, gone: set<Port>)
    requires Wellformed(t) && Balanced(t) && gone <= t.ports.Keys
    ensures Balanced(Without(t, gone))
  {
    ListenersInjective(t, gone);
    assert t.closed !! Listeners(t, gone);
    KeysSplit(t.ports, t.ports - gone, gone);
  }

  lemma CloseSessionBalanced(t: Table, sid: SessionId)
    requires Wellformed(t) && Balanced(t)
    ensures Balanced(CloseSession(t, sid))
  {
    hide Listeners;
    assert Dropped(t, sid) * t.ports.Keys == Dropped(t, sid);
    WithoutBalanced(t, Dropped(t, sid));
    KeysSplit(t.ports, CloseSession(t, sid).ports, Dropped(t, sid));
    KeysSplit(t.ports, t.ports - Dropped(t, sid), Dropped(t, sid));
  }

  /** Shutting the host down closes every listener it ever created exactly once. */
  lemma CloseAllClosesOnce(t: Table)
    requires Wellformed(t) && Balanced(t)
    ensures var u := CloseAll(t); u.closes == u.listens && forall l: nat :: l < u.listens <==> l in u.closed
  {
    var u := CloseAll(t);
    WithoutBalanced(t, t.ports.Keys);
    assert u.ports.Keys == {};
    assert |u.ports| == |u.ports.Keys|;
    FullRange(u.closed, u.listens);
  }

  lemma {:induction false} FullRange(s: set<nat>, n: nat)
    requires forall l :: l in s ==> l < n
    ensures |s| <= n
    ensures |s| == n ==> forall l: nat :: l < n ==> l in s
  {
    if n == 0 {
      assert s == {};
    } else {
      FullRange(s - {n - 1}, n - 1);
    }
  }

  lemma WithoutNone(t: Table)
    ensures Without(t, {}) == t
  {
    assert Listeners(t, {}) == {} && t.ports - {} == t.ports;
  }

  lemma ReleasedNone(t: Table, sid: SessionId)
    ensures Released(t, sid, {}) == t
  {
    WithoutNone(t);
    assert Dropped(t, sid) * {} == {};
  }

  lemma WithoutStep(t: Table, gone: set<Port>, port: Port)
    requires gone <= t.ports.Keys && port in t.ports && port !in gone
    ensures var u := Without(t, gone);
            Without(t, gone + {port}) ==
            Table(u.ports - {port}, u.listens, u.closed + {t.ports[port].listener}, u.closes + 1)
  {
    assert Listeners(t, gone + {port}) == Listeners(t, gone) + {t.ports[port].listener};
    assert t.ports - (gone + {port}) == t.ports - gone - {port};
  }

  lemma ReleaseStep(t: Table, sid: SessionId, done: set<Port>, port: Port)
    requires done <= t.ports.Keys && port in t.ports && port !in done
    ensures var u := Released(t, sid, done);
            var rest := t.ports[port].(sessions := t.ports[port].sessions - {sid});
            && port in u.ports && u.ports[port] == t.ports[port]
            && Released(t, sid, done + {port}) ==
               if rest.sessions == {} then
                 Table(u.ports[port := rest] - {port}, u.listens, u.closed + {rest.listener}, u.closes + 1)
               else u.(ports := u.ports[port := rest])
  {
    hide Without;
    var u := Released(t, sid, done);
    var v := Released(t, sid, done + {port});
    var rest := t.ports[port].(sessions := t.ports[port].sessions - {sid});
    var gone := Dropped(t, sid) * done;
    if rest.sessions == {} {
      assert Dropped(t, sid) * (done + {port}) == gone + {port};
      WithoutStep(t, gone, port);
      assert v.ports == u.ports[port := rest] - {port};
    } else {
      assert Dropped(t, sid) * (done + {port}) == gone;
      assert v.ports == u.ports[port := rest];
    }
  }

  /** The part of the host that owns the UDP listeners. */
  class Host {
    const forwarding: bool
    const ready: bool
    var udpPorts: map<Port, PortState>
    var listens: nat
    var closed: set<nat>
    var closes: nat
    var shut: bool

    function View(): Table
      reads this
    {
      Table(udpPorts, listens, closed, closes)
    }

    constructor (forwarding: bool, ready: bool)
      ensures View() == EMPTY && !shut
      ensures this.forwarding == forwarding && this.ready == ready
    {
      this.forwarding, this.ready := forwarding, ready;
      udpPorts, listens, closed, closes, shut := map[], 0, {}, 0, false;
    }

    /** `listenOk` is the operating system's answer to a listen call. */
    method OpenUdp(sid: SessionId, port: Port, listenOk: bool) returns (outcome: Outcome)
      modifies this
      ensures (View(), outcome) == Open(old(View()), sid, port, forwarding, ready, listenOk)
      ensures shut == old(shut)
    {
      if !forwarding {
        return Disabled;
      }
      if !ready {
        return Unavailable;
      }
      if port in udpPorts {
        var current := udpPorts[port];
        udpPorts := udpPorts[port := current.(sessions := current.sessions + {sid})];
        return Granted;
      }
      if !listenOk {
        return ListenFailed;
      }
      udpPorts := udpPorts[port := PortState(listens, {sid})];
      listens := listens + 1;
      return Granted;
    }

    method CloseUdpSession(sid: SessionId)
      modifies this
      ensures View() == CloseSession(old(View()), sid)
      ensures shut == old(shut)
    {
      ghost var t := View();
      var todo := udpPorts.Keys;
      ghost var done: set<Port> := {};
      ReleasedNone(t, sid);
      hide Released;
      while todo != {}
        invariant todo + done == t.ports.Keys && todo !! done
        invariant View() == Released(t, sid, done)
        invariant shut == old(shut)
      {
        var port :| port in todo;
        ReleaseStep(t, sid, done, port);
        var state := udpPorts[port];
        state := state.(sessions := state.sessions - {sid});
        udpPorts := udpPorts[port := state];
        if state.sessions == {} {
          closed, closes := closed + {state.listener}, closes + 1;
          udpPorts := udpPorts - {port};
        }
        todo := todo - {port};
        done := done + {port};
      }
      assert done == t.ports.Keys;
    }

    /** The port-table part of shutting down; later calls do nothing. */
    method Close()
      modifies this
      ensures shut
      ensures View() == if old(shut) then old(View()) else CloseAll(old(View()))
    {
      if shut {
        return;
      }
      shut := true;
      ghost var t := View();
      var todo := udpPorts.Keys;
      ghost var gone: set<Port> := {};
      WithoutNone(t);
      hide Without;
      while todo != {}
        invariant todo + gone == t.ports.Keys && todo !! gone
        invariant View() == Without(t, gone)
        invariant shut
      {
        var port :| port in todo;
        WithoutStep(t, gone, port);
        closed, closes := closed + {udpPorts[port].listener}, closes + 1;
        udpPorts := udpPorts - {port};
        todo := todo - {port};
        gone := gone + {port};
      }
      assert gone == t.ports.Keys;
    }
  }
}
