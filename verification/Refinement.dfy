/** The step system and the sequential methods agree. Once a goroutine has begun
    on a message, a lost key or a tick, and nobody gets in between, every way it
    can finish has the effect the methods of `Receive` promise; and with room in
    the channel it can finish, removing sessions in any order. */
module Refinement {
  import opened Wrappers
  import opened Overlay
  import opened Sessions
  import opened Orders
  import opened Pipeline
  import opened Footprints
  import U = UdpLeases

  ghost predicate Sweeping(a: Action) {
    a.RemoveVictim? || a.SendRemoval? || a.EndSweep?
  }

  /** The steps a goroutine takes by itself once it has begun on something. */
  ghost predicate OwnStep(who: Owner, a: Action) {
    match who
    case ReceiveLoop =>
      || a.TrackMessage? || a.LockGone? || a.EnqueueNode? || a.LoadLastNode? || a.OpenPort? || a.SendReply? || a.NotifyRecv?
      || Sweeping(a)
    case Reaper => a.LockExpiry? || a.NotifyReap? || Sweeping(a)
  }

  ghost predicate AtRest(who: Owner, m: Machine) {
    match who
    case ReceiveLoop => m.recv.RecvIdle? || m.recv.RecvStopped?
    case Reaper => m.reaper.ReapIdle?
  }

  /** The goroutine alone takes the given steps from `m` until it first rests, in
      `n`; `sent` is the reply it sent on the way. */
  ghost predicate Completes(who: Owner, m: Machine, actions: seq<Action>, n: Machine, sent: Option<Reply>)
    decreases |actions|
  {
    if AtRest(who, m) then actions == [] && n == m && sent == None
    else
      && actions != [] && OwnStep(who, actions[0]) && Enabled(m, actions[0])
      && if actions[0].SendReply? then |actions| == 1 && n == Next(m, actions[0]) && sent == Some(m.recv.reply)
         else Completes(who, Next(m, actions[0]), actions[1..], n, sent)
  }

  lemma Rested(who: Owner, m: Machine, actions: seq<Action>, n: Machine, sent: Option<Reply>)
    requires Completes(who, m, actions, n, sent) && AtRest(who, m)
    ensures actions == [] && n == m && sent == None
  {
  }

  lemma Begins(who: Owner, m: Machine, actions: seq<Action>, n: Machine, sent: Option<Reply>) returns (a: Action, rest: seq<Action>)
    requires Completes(who, m, actions, n, sent) && !AtRest(who, m)
    ensures actions == [a] + rest && OwnStep(who, a) && Enabled(m, a)
    ensures if a.SendReply? then rest == [] && n == Next(m, a) && sent == Some(m.recv.reply)
            else Completes(who, Next(m, a), rest, n, sent)
  {
    hide Enabled, Next, OwnStep;
    a, rest := actions[0], actions[1..];
  }

  lemma CompletesAfter(who: Owner, m: Machine, a: Action, rest: seq<Action>, n: Machine, sent: Option<Reply>)
    requires !AtRest(who, m) && OwnStep(who, a) && Enabled(m, a)
    requires if a.SendReply? then rest == [] && n == Next(m, a) && sent == Some(m.recv.reply)
             else Completes(who, Next(m, a), rest, n, sent)
    ensures Completes(who, m, [a] + rest, n, sent)
  {
    hide Enabled, Next, OwnStep, AtRest;
    assert ([a] + rest)[1..] == rest;
  }

  /** Without the mutex in anyone's hands the receive loop has one way to go on. */
  lemma OnlyStep(m: Machine, a: Action)
    requires m.lock.None? && OwnStep(ReceiveLoop, a) && Enabled(m, a)
    ensures match m.recv
            case RecvGot(_, _, _, _) => a == TrackMessage
            case RecvGone(_) => a == LockGone
            case RecvNotify(_) => a == NotifyRecv
            case RecvEnqueue(_, _, _) => a == EnqueueNode
            case RecvLoad(_, _) => a == LoadLastNode
            case RecvOpen(_, _, _, _) => a.OpenPort?
            case RecvReply(_, _) => a.SendReply?
            case _ => false
  {
  }

  // ----- notifications -----

  lemma {:induction false} RecvNotifies(m: Machine, ids: seq<SessionId>, actions: seq<Action>, n: Machine, sent: Option<Reply>)
    requires if ids == [] then m.recv.RecvIdle? else m.recv == RecvNotify(ids) && m.lock.None?
    requires Completes(ReceiveLoop, m, actions, n, sent)
    ensures sent == None && n == m.(udp := CloseSessions(m.udp, ids), recv := RecvIdle)
    decreases |ids|
  {
    hide Completes, U.CloseSession, Enabled, OwnStep;
    if ids == [] {
      Rested(ReceiveLoop, m, actions, n, sent);
    } else {
      var a, rest := Begins(ReceiveLoop, m, actions, n, sent);
      OnlyStep(m, a);
      RecvNotifies(Next(m, a), ids[1..], rest, n, sent);
    }
  }

  lemma {:induction false} ReapNotifies(m: Machine, ids: seq<SessionId>, actions: seq<Action>, n: Machine, sent: Option<Reply>)
    requires if ids == [] then m.reaper.ReapIdle? else m.reaper == ReapNotify(ids) && m.lock.None?
    requires Completes(Reaper, m, actions, n, sent)
    ensures sent == None && n == m.(udp := CloseSessions(m.udp, ids), reaper := ReapIdle)
    decreases |ids|
  {
    hide Completes, U.CloseSession;
    if ids == [] {
      Rested(Reaper, m, actions, n, sent);
    } else {
      var a, rest := Begins(Reaper, m, actions, n, sent);
      ReapNotifies(Next(m, a), ids[1..], rest, n, sent);
    }
  }

  // ----- sweeps -----

  /** The goroutine holds the mutex and removes `victims`. */
  ghost predicate Sweeps(who: Owner, m: Machine, sweep: Sweep) {
    && m.lock == Some(sweep) && sweep.owner == who && sweep.sending == None
    && match who case ReceiveLoop => m.recv.RecvSweep? case Reaper => m.reaper.ReapSweep?
  }

  /** The machine after a sweep that removed its victims in the given order and
      ended all their leases. */
  ghost function Swept(who: Owner, m: Machine, sweep: Sweep, order: seq<SessionId>): Machine {
    var n := m.(peers := m.peers - sweep.victims, inbox := m.inbox + Removals(order),
                udp := CloseSessions(m.udp, sweep.removed + order), lock := None);
    match who
    case ReceiveLoop => n.(recv := RecvIdle)
    case Reaper => n.(reaper := ReapIdle)
  }

  /** The machine after one victim was removed and its removal sent. */
  ghost function RemovedOne(m: Machine, sweep: Sweep, v: SessionId): Machine {
    m.(peers := m.peers - {v}, inbox := m.inbox + [PeerUpdate(v, None)],
       lock := Some(sweep.(victims := sweep.victims - {v}, removed := sweep.removed + [v])))
  }

  lemma SweepStep(who: Owner, m: Machine, sweep: Sweep, a: Action)
    requires Sweeps(who, m, sweep) && OwnStep(who, a) && Enabled(m, a)
    ensures if sweep.victims == {} then a == EndSweep else a.RemoveVictim? && a.sid in sweep.victims
  {
  }

  lemma SendStep(who: Owner, m: Machine, sweep: Sweep, v: SessionId, b: Action)
    requires Sweeps(who, m, sweep) && Enabled(m, RemoveVictim(v))
    requires OwnStep(who, b) && Enabled(Next(m, RemoveVictim(v)), b)
    ensures b == SendRemoval && Next(Next(m, RemoveVictim(v)), b) == RemovedOne(m, sweep, v)
    ensures !AtRest(who, Next(m, RemoveVictim(v)))
  {
    var k := Next(m, RemoveVictim(v));
    assert k == m.(peers := m.peers - {v}, lock := Some(sweep.(victims := sweep.victims - {v}, sending := Some(v))));
    MustSend(who, k, b);
  }

  lemma MustSend(who: Owner, m: Machine, b: Action)
    requires m.lock.Some? && m.lock.value.owner == who && m.lock.value.sending.Some?
    requires match who case ReceiveLoop => m.recv.RecvSweep? case Reaper => m.reaper.ReapSweep?
    requires OwnStep(who, b) && Enabled(m, b)
    ensures b == SendRemoval
  {
  }

  lemma SweptOneByOne(who: Owner, m: Machine, sweep: Sweep, v: SessionId, order: seq<SessionId>)
    requires v in sweep.victims
    ensures var n := RemovedOne(m, sweep, v);
            Swept(who, n, n.lock.value, order) == Swept(who, m, sweep, [v] + order)
  {
    var n := RemovedOne(m, sweep, v);
    assert n.peers - n.lock.value.victims == m.peers - sweep.victims;
    assert n.inbox + Removals(order) == m.inbox + Removals([v] + order);
    assert n.lock.value.removed + order == sweep.removed + ([v] + order);
  }

  lemma PutFirst(order: seq<SessionId>, victims: set<SessionId>, v: SessionId)
    requires Enumerates(order, victims - {v}) && v in victims
    ensures Enumerates([v] + order, victims)
  {
    forall x ensures x in [v] + order <==> x in victims {
      if x in victims && x != v {
        assert x in order;
      }
    }
  }

  lemma FirstVictim(order: seq<SessionId>, victims: set<SessionId>)
    requires Enumerates(order, victims)
    ensures if order == [] then victims == {}
            else order[0] in victims && Enumerates(order[1..], victims - {order[0]})
  {
    EnumerationEmpty(order, victims);
    if order != [] {
      assert order[0] in order;
      DropEnumerated(order, victims, 0);
      assert order[..0] + order[1..] == order[1..];
    }
  }

  lemma SweepEnds(who: Owner, m: Machine, sweep: Sweep)
    requires Sweeps(who, m, sweep) && sweep.victims == {}
    ensures Enabled(m, EndSweep)
    ensures var n := Next(m, EndSweep);
            && n.lock.None?
            && match who
               case ReceiveLoop =>
                 n == m.(lock := None, recv := n.recv) && n.recv == if sweep.removed == [] then RecvIdle else RecvNotify(sweep.removed)
               case Reaper =>
                 n == m.(lock := None, reaper := n.reaper) && n.reaper == if sweep.removed == [] then ReapIdle else ReapNotify(sweep.removed)
  {
  }

  lemma SweptNobody(who: Owner, m: Machine, sweep: Sweep)
    requires sweep.victims == {}
    ensures var n := m.(lock := None, udp := CloseSessions(m.udp, sweep.removed));
            Swept(who, m, sweep, []) == match who case ReceiveLoop => n.(recv := RecvIdle) case Reaper => n.(reaper := ReapIdle)
  {
    assert m.peers - {} == m.peers && m.inbox + Removals([]) == m.inbox && sweep.removed + [] == sweep.removed;
  }

  /** However a sweep goes, it removes its victims in some order. */
  lemma {:induction false} SweepRefines(who: Owner, m: Machine, sweep: Sweep, actions: seq<Action>, n: Machine, sent: Option<Reply>)
    returns (order: seq<SessionId>)
    requires Sweeps(who, m, sweep) && Completes(who, m, actions, n, sent)
    ensures Enumerates(order, sweep.victims) && sent == None && n == Swept(who, m, sweep, order)
    decreases |sweep.victims|
  {
    hide Completes, Enabled, Next, OwnStep, Enumerates, Swept, CloseSessions, RemovedOne;
    var a, rest := Begins(who, m, actions, n, sent);
    SweepStep(who, m, sweep, a);
    if sweep.victims == {} {
      order := [];
      EmptyOrder(sweep.victims);
      SweepEnds(who, m, sweep);
      SweptNobody(who, m, sweep);
      match who {
        case ReceiveLoop => RecvNotifies(Next(m, a), sweep.removed, rest, n, sent);
        case Reaper => ReapNotifies(Next(m, a), sweep.removed, rest, n, sent);
      }
    } else {
      var v := a.sid;
      StillSweeping(who, m, sweep, v);
      var b, later := Begins(who, Next(m, a), rest, n, sent);
      SendStep(who, m, sweep, v, b);
      var k := RemovedOne(m, sweep, v);
      order := SweepRefines(who, k, k.lock.value, later, n, sent);
      SweptOneByOne(who, m, sweep, v, order);
      PutFirst(order, sweep.victims, v);
      order := [v] + order;
    }
  }

  lemma EmptyOrder(victims: set<SessionId>)
    requires victims == {}
    ensures Enumerates([], victims)
  {
  }

  lemma StillSweeping(who: Owner, m: Machine, sweep: Sweep, v: SessionId)
    requires Sweeps(who, m, sweep) && v in sweep.victims
    ensures Enabled(m, RemoveVictim(v)) && !AtRest(who, Next(m, RemoveVictim(v)))
    ensures var k := RemovedOne(m, sweep, v); k.lock.Some? && Sweeps(who, k, k.lock.value) && k.lock.value.victims == sweep.victims - {v}
    ensures |m.inbox| < CAPACITY ==> Enabled(Next(m, RemoveVictim(v)), SendRemoval)
  {
  }

  // ----- a message -----

  /** Every port request among the steps meets these conditions. */
  ghost predicate Meets(actions: seq<Action>, forwarding: bool, ready: bool, listenOk: bool) {
    forall i :: 0 <= i < |actions| && actions[i].OpenPort? ==> actions[i] == OpenPort(forwarding, ready, listenOk)
  }

  ghost predicate Finished(m: Machine) {
    m.recv.RecvIdle? || m.recv.RecvStopped?
  }

  lemma ReplyRefines(m: Machine, actions: seq<Action>, n: Machine, sent: Option<Reply>)
    requires m.lock.None? && m.recv.RecvReply? && Completes(ReceiveLoop, m, actions, n, sent)
    ensures sent == Some(m.recv.reply) && Finished(n) && n == m.(recv := n.recv)
  {
    hide Completes, Enabled, OwnStep;
    var a, rest := Begins(ReceiveLoop, m, actions, n, sent);
    OnlyStep(m, a);
  }

  lemma LoadRefines(m: Machine, actions: seq<Action>, n: Machine, sent: Option<Reply>)
    requires m.lock.None? && m.recv.RecvLoad? && Completes(ReceiveLoop, m, actions, n, sent)
    ensures sent == Some(if m.recv.greeting then HelloReply(m.lastNode) else NodeReply(m.lastNode))
    ensures Finished(n) && n == m.(recv := n.recv)
  {
    hide Completes, Enabled, OwnStep;
    var a, rest := Begins(ReceiveLoop, m, actions, n, sent);
    OnlyStep(m, a);
    ReplyRefines(Next(m, a), rest, n, sent);
  }

  lemma EnqueueRefines(m: Machine, actions: seq<Action>, n: Machine, sent: Option<Reply>)
    requires m.lock.None? && m.recv.RecvEnqueue? && Completes(ReceiveLoop, m, actions, n, sent)
    ensures sent == Some(NodeReply(m.lastNode)) && Finished(n)
    ensures n == m.(recv := n.recv, inbox := m.inbox + [PeerUpdate(m.recv.sid, Some(m.recv.node))])
  {
    hide Completes, Enabled, OwnStep;
    var a, rest := Begins(ReceiveLoop, m, actions, n, sent);
    OnlyStep(m, a);
    LoadRefines(Next(m, a), rest, n, sent);
  }

  lemma OpenRefines(m: Machine, actions: seq<Action>, n: Machine, sent: Option<Reply>, forwarding: bool, ready: bool, listenOk: bool)
    requires m.lock.None? && m.recv.RecvOpen? && Completes(ReceiveLoop, m, actions, n, sent)
    requires Meets(actions, forwarding, ready, listenOk)
    ensures var (udp, outcome) := U.Open(m.udp, m.recv.sid, m.recv.port, forwarding, ready, listenOk);
            && sent == Some(UdpReply(m.recv.requestId, m.recv.port, UdpAnswer(outcome)))
            && n == m.(recv := n.recv, udp := udp)
    ensures Finished(n)
  {
    hide Completes, Enabled, OwnStep, U.Open;
    var a, rest := Begins(ReceiveLoop, m, actions, n, sent);
    OnlyStep(m, a);
    assert actions[0] == a;
    ReplyRefines(Next(m, a), rest, n, sent);
  }

  lemma OneVictim(order: seq<SessionId>, sid: SessionId)
    requires Enumerates(order, {sid})
    ensures order == [sid]
  {
    FirstVictim(order, {sid});
    assert sid in order;
    assert {sid} - {sid} == {};
    EnumerationEmpty(order[1..], {sid} - {order[0]});
  }

  lemma GoodbyeRefines(m: Machine, sid: SessionId, live: bool, actions: seq<Action>, n: Machine, sent: Option<Reply>)
    requires if live then Sweeps(ReceiveLoop, m, Sweep(ReceiveLoop, {sid}, None, [])) else m.lock == None && m.recv == RecvNotify([sid])
    requires Completes(ReceiveLoop, m, actions, n, sent)
    ensures sent == None && n.recv == RecvIdle
    ensures n == m.(peers := if live then m.peers - {sid} else m.peers, inbox := if live then m.inbox + Removals([sid]) else m.inbox,
                    udp := U.CloseSession(m.udp, sid), lock := None, recv := RecvIdle)
  {
    hide U.CloseSession, Completes;
    assert [sid][1..] == [];
    assert CloseSessions(m.udp, [sid]) == U.CloseSession(m.udp, sid);
    if live {
      var order := SweepRefines(ReceiveLoop, m, m.lock.value, actions, n, sent);
      OneVictim(order, sid);
      assert [] + [sid] == [sid];
    } else {
      RecvNotifies(m, [sid], actions, n, sent);
    }
  }

  lemma OwnStepsDoNotStop(m: Machine, a: Action)
    requires OwnStep(ReceiveLoop, a) && Enabled(m, a) && !m.recv.RecvStopped?
    ensures Next(m, a).recv.RecvStopped? <==> a == SendReply(false)
  {
    if a.TrackMessage? {
      TrackShapes(m);
      hide Next;
    } else if Sweeping(a) {
      SweepFootprint(m, a);
      hide Next;
    } else {
      hide U.Open, U.CloseSession;
    }
  }

  /** The receive loop stops exactly when it could not send its reply. */
  lemma {:induction false} StopsIffReplyFails(m: Machine, actions: seq<Action>, n: Machine, sent: Option<Reply>)
    requires Completes(ReceiveLoop, m, actions, n, sent) && !m.recv.RecvStopped?
    ensures n.recv.RecvStopped? <==> SendReply(false) in actions
    decreases |actions|
  {
    hide Enabled, Next, OwnStep;
    if actions != [] {
      OwnStepsDoNotStop(m, actions[0]);
      if !actions[0].SendReply? {
        StopsIffReplyFails(Next(m, actions[0]), actions[1..], n, sent);
      }
      assert SendReply(false) in actions <==> SendReply(false) == actions[0] || SendReply(false) in actions[1..];
    }
  }

  /** The machine as the receive loop has it after tracking a message. */
  ghost function Tracked(m: Machine, source: DerpKey, sid: SessionId, body: Body): Machine {
    TrackStep(m.(recv := RecvGot(sid, source, body, m.now)))
  }

  lemma AcceptedRefines(m: Machine, sid: SessionId, body: Body, actions: seq<Action>, n: Machine, sent: Option<Reply>,
                        forwarding: bool, ready: bool, listenOk: bool)
    requires m.lock.None? && m.recv == AfterTrack(sid, body, m.now) && !body.Goodbye?
    requires Completes(ReceiveLoop, m, actions, n, sent) && Meets(actions, forwarding, ready, listenOk)
    ensures Finished(n) && n == m.(recv := n.recv, inbox := n.inbox, udp := n.udp) && (n.recv.RecvStopped? ==> sent.Some?)
    ensures n.inbox == if body.NodeUpdate? then m.inbox + [PeerUpdate(sid, Some(body.node))] else m.inbox
    ensures var handled := body.OpenUdp? && body.requestId != "" && body.port != 0;
            var (udp, outcome) := if handled then U.Open(m.udp, sid, body.port, forwarding, ready, listenOk) else (m.udp, U.Granted);
            && n.udp == udp
            && sent == match body
                       case Ping => Some(PongReply)
                       case Hello => Some(HelloReply(m.lastNode))
                       case NodeUpdate(_) => Some(NodeReply(m.lastNode))
                       case OpenUdp(rid, port) =>
                         Some(UdpReply(rid, port, if rid == "" then Some(RequestIdMissing)
                                                  else if port == 0 then Some(PortZero) else UdpAnswer(outcome)))
                       case _ => None
  {
    hide Completes, U.Open, Meets;
    match m.recv
    case RecvReply(_, _) => ReplyRefines(m, actions, n, sent);
    case RecvLoad(_, _) => LoadRefines(m, actions, n, sent);
    case RecvEnqueue(_, _, _) => EnqueueRefines(m, actions, n, sent);
    case RecvOpen(_, _, _, _) => OpenRefines(m, actions, n, sent, forwarding, ready, listenOk);
    case _ => Rested(ReceiveLoop, m, actions, n, sent);
  }

  lemma TrackFirst(m: Machine, source: DerpKey, sid: SessionId, body: Body, actions: seq<Action>, n: Machine, sent: Option<Reply>)
    returns (rest: seq<Action>)
    requires m.recv.RecvIdle? && m.lock.None?
    requires Completes(ReceiveLoop, Next(m, Deliver(sid, source, body)), actions, n, sent)
    ensures actions == [TrackMessage] + rest && Completes(ReceiveLoop, Tracked(m, source, sid, body), rest, n, sent)
  {
    var got := Next(m, Deliver(sid, source, body));
    hide Completes, Enabled, OwnStep, TrackStep;
    var a: Action;
    a, rest := Begins(ReceiveLoop, got, actions, n, sent);
    OnlyStep(got, a);
  }

  ghost function EffectOf(m: Machine): Effect {
    Effect(m.peers, m.inbox, m.udp)
  }

  /** Tables, channel and reply are those of the sequential handler. */
  ghost predicate HandledAs(m: Machine, source: DerpKey, sid: SessionId, body: Body, n: Machine, sent: Option<Reply>,
                            forwarding: bool, ready: bool, listenOk: bool)
  {
    var (effect, answer) := Handle(EffectOf(m), m.lastNode, forwarding, ready, listenOk, source, sid, body, m.now);
    EffectOf(n) == effect && sent == match answer case Ok(reply) => reply case Err(_) => None
  }

  lemma AcceptedHandled(m: Machine, source: DerpKey, sid: SessionId, body: Body, actions: seq<Action>, n: Machine, sent: Option<Reply>,
                        forwarding: bool, ready: bool, listenOk: bool)
    requires m.recv.RecvIdle? && m.lock.None? && Track(m.peers, sid, source, body, m.now).1 == Accepted
    requires Completes(ReceiveLoop, Tracked(m, source, sid, body), actions, n, sent) && Meets(actions, forwarding, ready, listenOk)
    ensures HandledAs(m, source, sid, body, n, sent, forwarding, ready, listenOk)
    ensures Finished(n) && n == m.(peers := n.peers, inbox := n.inbox, udp := n.udp, recv := n.recv)
    ensures n.recv.RecvStopped? ==> sent.Some?
  {
    hide U.Open, Completes, Meets;
    AcceptedRefines(Tracked(m, source, sid, body), sid, body, actions, n, sent, forwarding, ready, listenOk);
    hide AfterTrack;
  }

  lemma DepartedHandled(m: Machine, source: DerpKey, sid: SessionId, body: Body, actions: seq<Action>, n: Machine, sent: Option<Reply>,
                        forwarding: bool, ready: bool, listenOk: bool)
    requires m.recv.RecvIdle? && m.lock.None? && Track(m.peers, sid, source, body, m.now).1 == Departed
    requires Completes(ReceiveLoop, Tracked(m, source, sid, body), actions, n, sent)
    ensures HandledAs(m, source, sid, body, n, sent, forwarding, ready, listenOk)
    ensures n == m.(peers := n.peers, inbox := n.inbox, udp := n.udp, recv := RecvIdle)
  {
    hide U.CloseSession, Completes;
    assert sid !in m.peers ==> m.peers - {sid} == m.peers;
    GoodbyeRefines(Tracked(m, source, sid, body), sid, sid in m.peers, actions, n, sent);
  }

  /** However the receive loop finishes a message nobody interrupts, the tables,
      the channel and the reply are those of the sequential handler, and nothing
      else has changed. */
  lemma MessageRefines(m: Machine, source: DerpKey, sid: SessionId, body: Body, actions: seq<Action>, n: Machine, sent: Option<Reply>,
                       forwarding: bool, ready: bool, listenOk: bool)
    requires m.recv.RecvIdle? && m.lock.None?
    requires Completes(ReceiveLoop, Next(m, Deliver(sid, source, body)), actions, n, sent)
    requires Meets(actions, forwarding, ready, listenOk)
    ensures HandledAs(m, source, sid, body, n, sent, forwarding, ready, listenOk)
    ensures Finished(n) && n == m.(peers := n.peers, inbox := n.inbox, udp := n.udp, recv := n.recv)
    ensures n.recv.RecvStopped? <==> SendReply(false) in actions
    ensures n.recv.RecvStopped? ==> sent.Some?
  {
    hide U.Open, U.CloseSession, Completes;
    var got := Next(m, Deliver(sid, source, body));
    assert !got.recv.RecvStopped?;
    hide Next, Enabled;
    StopsIffReplyFails(got, actions, n, sent);
    var rest := TrackFirst(m, source, sid, body, actions, n, sent);
    var tracked := Tracked(m, source, sid, body);
    assert Meets(rest, forwarding, ready, listenOk) by {
      assert forall i :: 0 <= i < |rest| ==> rest[i] == actions[i + 1];
    }
    var (_, verdict) := Track(m.peers, sid, source, body, m.now);
    match verdict {
      case Rejected(_) =>
        Rested(ReceiveLoop, tracked, rest, n, sent);
      case Departed =>
        hide HandledAs;
        DepartedHandled(m, source, sid, body, rest, n, sent, forwarding, ready, listenOk);
      case Accepted =>
        hide HandledAs;
        AcceptedHandled(m, source, sid, body, rest, n, sent, forwarding, ready, listenOk);
    }
  }

  // ----- a lost key and a tick -----

  lemma GoneFirst(m: Machine, key: DerpKey, actions: seq<Action>, n: Machine, sent: Option<Reply>) returns (rest: seq<Action>, k: Machine)
    requires m.recv.RecvIdle? && m.lock.None?
    requires Completes(ReceiveLoop, Next(m, PeerGone(key)), actions, n, sent)
    ensures actions == [LockGone] + rest && Completes(ReceiveLoop, k, rest, n, sent)
    ensures k == m.(recv := RecvSweep, lock := Some(Sweep(ReceiveLoop, FromSource(m.peers, key), None, [])))
  {
    var gone := Next(m, PeerGone(key));
    hide Completes, Enabled, OwnStep;
    var a: Action;
    a, rest := Begins(ReceiveLoop, gone, actions, n, sent);
    OnlyStep(gone, a);
    k := Next(gone, a);
  }

  /** However the receive loop finishes a lost key nobody interrupts, exactly the
      sessions of that key are gone, announced and without leases. */
  lemma KeyGoneRefines(m: Machine, key: DerpKey, actions: seq<Action>, n: Machine, sent: Option<Reply>) returns (order: seq<SessionId>)
    requires m.recv.RecvIdle? && m.lock.None?
    requires Completes(ReceiveLoop, Next(m, PeerGone(key)), actions, n, sent)
    ensures Enumerates(order, FromSource(m.peers, key)) && sent == None
    ensures n == m.(peers := m.peers - FromSource(m.peers, key), inbox := m.inbox + Removals(order),
                    udp := CloseSessions(m.udp, order))
  {
    hide Completes, Next, Enumerates;
    var rest, k := GoneFirst(m, key, actions, n, sent);
    order := SweepRefines(ReceiveLoop, k, k.lock.value, rest, n, sent);
    assert [] + order == order;
  }

  lemma TickFirst(m: Machine, tick: Time, actions: seq<Action>, n: Machine, sent: Option<Reply>) returns (rest: seq<Action>, k: Machine)
    requires m.reaper == ReapTick(tick) && m.lock.None? && Completes(Reaper, m, actions, n, sent)
    ensures actions == [LockExpiry] + rest && Completes(Reaper, k, rest, n, sent)
    ensures k == m.(reaper := ReapSweep, lock := Some(Sweep(Reaper, Silent(m.peers, tick), None, [])))
  {
    hide Completes;
    var a: Action;
    a, rest := Begins(Reaper, m, actions, n, sent);
    assert a == LockExpiry;
    k := Next(m, a);
  }

  /** However the reaper finishes a tick nobody interrupts, exactly the sessions
      silent for the timeout are gone, announced and without leases. */
  lemma TickRefines(m: Machine, tick: Time, actions: seq<Action>, n: Machine, sent: Option<Reply>) returns (order: seq<SessionId>)
    requires m.reaper == ReapTick(tick) && m.lock.None? && Completes(Reaper, m, actions, n, sent)
    ensures Enumerates(order, Silent(m.peers, tick)) && sent == None
    ensures n == m.(peers := m.peers - Silent(m.peers, tick), inbox := m.inbox + Removals(order),
                    udp := CloseSessions(m.udp, order), reaper := ReapIdle)
  {
    hide Completes, Next, Enumerates;
    var rest, k := TickFirst(m, tick, actions, n, sent);
    order := SweepRefines(Reaper, k, k.lock.value, rest, n, sent);
    assert [] + order == order;
  }

  // ----- with room in the channel everything finishes -----

  ghost predicate OpensNothing(actions: seq<Action>) {
    forall i :: 0 <= i < |actions| ==> !actions[i].OpenPort?
  }

  lemma {:induction false} RecvNotifyEnds(m: Machine, ids: seq<SessionId>) returns (actions: seq<Action>, n: Machine)
    requires if ids == [] then m.recv.RecvIdle? else m.recv == RecvNotify(ids)
    ensures Completes(ReceiveLoop, m, actions, n, None) && OpensNothing(actions)
    decreases |ids|
  {
    hide U.CloseSession;
    if ids == [] {
      actions, n := [], m;
    } else {
      actions, n := RecvNotifyEnds(Next(m, NotifyRecv), ids[1..]);
      hide Completes;
      CompletesAfter(ReceiveLoop, m, NotifyRecv, actions, n, None);
      actions := [NotifyRecv] + actions;
    }
  }

  lemma {:induction false} ReapNotifyEnds(m: Machine, ids: seq<SessionId>) returns (actions: seq<Action>, n: Machine)
    requires if ids == [] then m.reaper.ReapIdle? else m.reaper == ReapNotify(ids)
    ensures Completes(Reaper, m, actions, n, None) && OpensNothing(actions)
    decreases |ids|
  {
    hide U.CloseSession;
    if ids == [] {
      actions, n := [], m;
    } else {
      actions, n := ReapNotifyEnds(Next(m, NotifyReap), ids[1..]);
      hide Completes;
      CompletesAfter(Reaper, m, NotifyReap, actions, n, None);
      actions := [NotifyReap] + actions;
    }
  }

  /** With room for all removals a sweep can finish, in any order. */
  lemma {:induction false} SweepCanFinish(who: Owner, m: Machine, sweep: Sweep, order: seq<SessionId>) returns (actions: seq<Action>)
    requires Sweeps(who, m, sweep) && Enumerates(order, sweep.victims) && |m.inbox| + |order| <= CAPACITY
    ensures Completes(who, m, actions, Swept(who, m, sweep, order), None) && OpensNothing(actions)
    decreases |order|
  {
    hide Completes, Enabled, Next, Enumerates, Swept, RemovedOne, CloseSessions, OwnStep;
    FirstVictim(order, sweep.victims);
    if order == [] {
      SweepEnds(who, m, sweep);
      SweptNobody(who, m, sweep);
      var n;
      match who {
        case ReceiveLoop =>
          actions, n := RecvNotifyEnds(Next(m, EndSweep), sweep.removed);
          RecvNotifies(Next(m, EndSweep), sweep.removed, actions, n, None);
        case Reaper =>
          actions, n := ReapNotifyEnds(Next(m, EndSweep), sweep.removed);
          ReapNotifies(Next(m, EndSweep), sweep.removed, actions, n, None);
      }
      OwnSweep(who, EndSweep);
      CompletesAfter(who, m, EndSweep, actions, n, None);
      actions := [EndSweep] + actions;
    } else {
      var v := order[0];
      StillSweeping(who, m, sweep, v);
      OwnSweep(who, SendRemoval);
      OwnSweep(who, RemoveVictim(v));
      SendStep(who, m, sweep, v, SendRemoval);
      var k := RemovedOne(m, sweep, v);
      assert |k.inbox| == |m.inbox| + 1 by {
        RoomLeft(m, sweep, v);
      }
      actions := SweepCanFinish(who, k, k.lock.value, order[1..]);
      SweptOneByOne(who, m, sweep, v, order[1..]);
      assert [v] + order[1..] == order;
      var n := Swept(who, m, sweep, order);
      CompletesAfter(who, Next(m, RemoveVictim(v)), SendRemoval, actions, n, None);
      CompletesAfter(who, m, RemoveVictim(v), [SendRemoval] + actions, n, None);
      actions := [RemoveVictim(v)] + ([SendRemoval] + actions);
    }
  }

  lemma OwnSweep(who: Owner, a: Action)
    requires Sweeping(a)
    ensures OwnStep(who, a)
  {
  }

  lemma RoomLeft(m: Machine, sweep: Sweep, v: SessionId)
    ensures |RemovedOne(m, sweep, v).inbox| == |m.inbox| + 1
  {
  }

  /** With room for all removals a lost key can be finished, in any order. */
  lemma KeyGoneCanFinish(m: Machine, key: DerpKey, order: seq<SessionId>) returns (actions: seq<Action>, n: Machine)
    requires m.recv.RecvIdle? && m.lock.None?
    requires Enumerates(order, FromSource(m.peers, key)) && |m.inbox| + |order| <= CAPACITY
    ensures Completes(ReceiveLoop, Next(m, PeerGone(key)), actions, n, None)
    ensures n.inbox == m.inbox + Removals(order)
  {
    var gone := Next(m, PeerGone(key));
    var k := Next(gone, LockGone);
    hide Completes, Next, Enumerates;
    actions := SweepCanFinish(ReceiveLoop, k, k.lock.value, order);
    n := Swept(ReceiveLoop, k, k.lock.value, order);
    CompletesAfter(ReceiveLoop, gone, LockGone, actions, n, None);
    actions := [LockGone] + actions;
  }

  lemma TickCanFinish(m: Machine, tick: Time, order: seq<SessionId>) returns (actions: seq<Action>, n: Machine)
    requires m.reaper == ReapTick(tick) && m.lock.None?
    requires Enumerates(order, Silent(m.peers, tick)) && |m.inbox| + |order| <= CAPACITY
    ensures Completes(Reaper, m, actions, n, None)
    ensures n.inbox == m.inbox + Removals(order)
  {
    var k := Next(m, LockExpiry);
    hide Completes, Next, Enumerates;
    actions := SweepCanFinish(Reaper, k, k.lock.value, order);
    n := Swept(Reaper, k, k.lock.value, order);
    CompletesAfter(Reaper, m, LockExpiry, actions, n, None);
    actions := [LockExpiry] + actions;
  }

  lemma ReplyCanFinish(m: Machine) returns (actions: seq<Action>, n: Machine, sent: Option<Reply>)
    requires m.recv.RecvReply?
    ensures Completes(ReceiveLoop, m, actions, n, sent) && actions == [SendReply(true)]
  {
    n, sent := Next(m, SendReply(true)), Some(m.recv.reply);
    CompletesAfter(ReceiveLoop, m, SendReply(true), [], n, sent);
    actions := [SendReply(true)] + [];
  }

  lemma LoadCanFinish(m: Machine) returns (actions: seq<Action>, n: Machine, sent: Option<Reply>)
    requires m.recv.RecvLoad?
    ensures Completes(ReceiveLoop, m, actions, n, sent) && actions == [LoadLastNode, SendReply(true)]
  {
    actions, n, sent := ReplyCanFinish(Next(m, LoadLastNode));
    CompletesAfter(ReceiveLoop, m, LoadLastNode, actions, n, sent);
    actions := [LoadLastNode] + actions;
  }

  lemma AcceptedCanFinish(m: Machine, forwarding: bool, ready: bool, listenOk: bool)
    returns (actions: seq<Action>, n: Machine, sent: Option<Reply>)
    requires |m.inbox| < CAPACITY
    requires m.recv.RecvIdle? || m.recv.RecvReply? || m.recv.RecvLoad? || m.recv.RecvEnqueue? || m.recv.RecvOpen?
    ensures Completes(ReceiveLoop, m, actions, n, sent) && Meets(actions, forwarding, ready, listenOk)
  {
    hide U.Open;
    if m.recv.RecvIdle? {
      actions, n, sent := [], m, None;
    } else if m.recv.RecvReply? {
      actions, n, sent := ReplyCanFinish(m);
    } else if m.recv.RecvLoad? {
      actions, n, sent := LoadCanFinish(m);
    } else if m.recv.RecvEnqueue? {
      actions, n, sent := LoadCanFinish(Next(m, EnqueueNode));
      CompletesAfter(ReceiveLoop, m, EnqueueNode, actions, n, sent);
      actions := [EnqueueNode] + actions;
    } else {
      var open := OpenPort(forwarding, ready, listenOk);
      actions, n, sent := ReplyCanFinish(Next(m, open));
      CompletesAfter(ReceiveLoop, m, open, actions, n, sent);
      actions := [open] + actions;
    }
  }

  /** With room for one update every message can be finished, whatever the
      conditions a port request meets. */
  lemma MessageCanFinish(m: Machine, source: DerpKey, sid: SessionId, body: Body, forwarding: bool, ready: bool, listenOk: bool)
    returns (actions: seq<Action>, n: Machine, sent: Option<Reply>)
    requires m.recv.RecvIdle? && m.lock.None? && |m.inbox| < CAPACITY
    ensures Completes(ReceiveLoop, Next(m, Deliver(sid, source, body)), actions, n, sent)
    ensures Meets(actions, forwarding, ready, listenOk)
  {
    hide U.CloseSession, Completes;
    var got := Next(m, Deliver(sid, source, body));
    var tracked := Next(got, TrackMessage);
    if tracked.recv.RecvSweep? {
      SingleOrder(sid);
      actions := SweepCanFinish(ReceiveLoop, tracked, tracked.lock.value, [sid]);
      n, sent := Swept(ReceiveLoop, tracked, tracked.lock.value, [sid]), None;
    } else if tracked.recv.RecvNotify? {
      actions, n := RecvNotifyEnds(tracked, tracked.recv.ids);
      sent := None;
    } else {
      actions, n, sent := AcceptedCanFinish(tracked, forwarding, ready, listenOk);
    }
    hide Next;
    CompletesAfter(ReceiveLoop, got, TrackMessage, actions, n, sent);
    actions := [TrackMessage] + actions;
  }

  lemma SingleOrder(sid: SessionId)
    ensures Enumerates([sid], {sid})
  {
  }
}
