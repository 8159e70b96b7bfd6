/** Which sessions are live: the host's table of peers and the messages that
    add, refresh and remove entries. */
module Sessions {
  import opened Wrappers
  import opened Overlay
  import opened Orders
  import U = UdpLeases

  datatype Peer = Peer(source: DerpKey, lastSeen: Time)
  type PeerTable = map<SessionId, Peer>

  datatype Refusal = EmptySessionId | EmptyDerpKey | HelloMustComeFirst | UnsupportedType

  datatype Verdict = Rejected(why: Refusal) | Departed | Accepted

  /** Goodbye removes a session, Hello admits one, anything else refreshes a
      session that is already live. */
  function Track(peers: PeerTable, sid: SessionId, source: DerpKey, body: Body, now: Time): (PeerTable, Verdict) {
    if sid == "" then (peers, Rejected(EmptySessionId))
    else if source == 0 then (peers, Rejected(EmptyDerpKey))
    else if body.Goodbye? then (peers - {sid}, Departed)
    else if sid !in peers && !body.Hello? then (peers, Rejected(HelloMustComeFirst))
    else (peers[sid := Peer(source, now)], Accepted)
  }

  predicate IsSilent(peer: Peer, now: Time) {
    peer.lastSeen <= now - INACTIVE_TIMEOUT
  }

  function Silent(peers: PeerTable, now: Time): set<SessionId> {
    set sid | sid in peers && IsSilent(peers[sid], now)
  }

  function FromSource(peers: PeerTable, key: DerpKey): set<SessionId> {
    set sid | sid in peers && peers[sid].source == key
  }

  function Removals(ids: seq<SessionId>): (r: seq<PeerUpdate>)
    ensures |r| == |ids| && forall i :: 0 <= i < |r| ==> r[i] == PeerUpdate(ids[i], None)
  {
    seq(|ids|, i requires 0 <= i < |ids| => PeerUpdate(ids[i], None))
  }

  function CloseSessions(t: U.Table, ids: seq<SessionId>): U.Table
    decreases |ids|
  {
    if ids == [] then t else CloseSessions(U.CloseSession(t, ids[0]), ids[1..])
  }

  lemma {:induction false} CloseSessionsAppend(t: U.Table, ids: seq<SessionId>, sid: SessionId)
    ensures CloseSessions(t, ids + [sid]) == U.CloseSession(CloseSessions(t, ids), sid)
    decreases |ids|
  {
    if ids == [] {
      assert ids + [sid] == [sid];
    } else {
      CloseSessionsAppend(U.CloseSession(t, ids[0]), ids[1..], sid);
      assert (ids + [sid])[1..] == ids[1..] + [sid];
    }
  }

  datatype UdpError = RequestIdMissing | PortZero | ForwardingDisabled | Failed(outcome: U.Outcome)

  datatype Reply =
    | PongReply
    | HelloReply(node: Option<Node>)
    | NodeReply(node: Option<Node>)
    | UdpReply(requestId: string, port: Port, error: Option<UdpError>)

  /** The tables a message can change. */
  datatype Effect = Effect(peers: PeerTable, inbox: seq<PeerUpdate>, udp: U.Table)

  function UdpAnswer(outcome: U.Outcome): Option<UdpError> {
    if outcome == U.Granted then None else Some(Failed(outcome))
  }

  /** One message handled without interruption. */
  function Handle(e: Effect, lastNode: Option<Node>, forwarding: bool, ready: bool, listenOk: bool,
                  source: DerpKey, sid: SessionId, body: Body, now: Time)
    : (Effect, Result<Option<Reply>, Refusal>)
  {
    var (peers, verdict) := Track(e.peers, sid, source, body, now);
    match verdict
    case Rejected(why) => (e, Err(why))
    case Departed =>
      (Effect(peers, if sid in e.peers then e.inbox + Removals([sid]) else e.inbox, U.CloseSession(e.udp, sid)),
       Ok(None))
    case Accepted =>
      var f := e.(peers := peers);
      match body
      case Ping => (f, Ok(Some(PongReply)))
      case Pong => (f, Ok(None))
      case Hello => (f, Ok(Some(HelloReply(lastNode))))
      case NodeUpdate(node) =>
        (f.(inbox := e.inbox + [PeerUpdate(sid, Some(node))]), Ok(Some(NodeReply(lastNode))))
      case OpenUdp(rid, port) =>
        if rid == "" then (f, Ok(Some(UdpReply(rid, port, Some(RequestIdMissing)))))
        else if port == 0 then (f, Ok(Some(UdpReply(rid, port, Some(PortZero)))))
        else
          var (udp, outcome) := U.Open(e.udp, sid, port, forwarding, ready, listenOk);
          (f.(udp := udp), Ok(Some(UdpReply(rid, port, UdpAnswer(outcome)))))
      case _ => (f, Err(UnsupportedType))
  }

  /** A live session's port request is answered under its own request ID and port:
      without an error exactly if the session now holds the port by a granted open,
      and otherwise with what stood in the way. */
  lemma PortRequestAnswered(e: Effect, lastNode: Option<Node>, forwarding: bool, ready: bool, listenOk: bool,
                            source: DerpKey, sid: SessionId, rid: string, port: Port, now: Time)
    requires sid != "" && source != 0 && sid in e.peers && U.Wellformed(e.udp)
    ensures var (f, answer) := Handle(e, lastNode, forwarding, ready, listenOk, source, sid, OpenUdp(rid, port), now);
            && answer.Ok? && answer.value.Some? && answer.value.value.UdpReply?
            && var reply := answer.value.value;
            && reply.requestId == rid && reply.port == port
            && f.inbox == e.inbox && f.peers == e.peers[sid := Peer(source, now)]
            && (rid == "" ==> reply.error == Some(RequestIdMissing) && f.udp == e.udp)
            && (rid != "" && port == 0 ==> reply.error == Some(PortZero) && f.udp == e.udp)
            && (rid != "" && port != 0 ==>
                  && (reply.error.None? <==> forwarding && ready && (port in e.udp.ports || listenOk))
                  && (reply.error.None? ==> U.Holds(f.udp, sid, port))
                  && (reply.error.Some? ==> f.udp == e.udp)
                  && (!forwarding ==> reply.error == Some(Failed(U.Disabled)))
                  && (forwarding && !ready ==> reply.error == Some(Failed(U.Unavailable)))
                  && (forwarding && ready && reply.error.Some? ==> reply.error == Some(Failed(U.ListenFailed))))
  {
    U.OpenGrants(e.udp, sid, port, forwarding, ready, listenOk);
    hide U.Wellformed;
  }

  /** The host's overlay endpoint. Sending on the inbox channel appends to
      `inbox`; waiting for room is the subject of the step system. */
  class Receive {
    var peers: PeerTable
    var lastNode: Option<Node>
    var inbox: seq<PeerUpdate>
    const host: U.Host

    constructor (host: U.Host)
      ensures peers == map[] && lastNode == None && inbox == [] && this.host == host
    {
      peers, lastNode, inbox := map[], None, [];
      this.host := host;
    }

    function View(): Effect
      reads this, host
    {
      Effect(peers, inbox, host.View())
    }

    /** Returns true when the message ended the session. */
    method TrackPeer(sid: SessionId, source: DerpKey, body: Body, now: Time) returns (r: Result<bool, Refusal>)
      modifies this`peers, this`inbox
      ensures var (p, verdict) := Track(old(peers), sid, source, body, now);
              && peers == p
              && r == (match verdict case Rejected(why) => Err(why) case Departed => Ok(true) case Accepted => Ok(false))
              && inbox == if verdict.Departed? && sid in old(peers) then old(inbox) + Removals([sid]) else old(inbox)
    {
      if sid == "" {
        return Err(EmptySessionId);
      }
      if source == 0 {
        return Err(EmptyDerpKey);
      }
      var exists_ := sid in peers;
      if body.Goodbye? {
        if exists_ {
          peers := peers - {sid};
          inbox := inbox + [PeerUpdate(sid, None)];
        } else {
          assert peers - {sid} == peers;
        }
        return Ok(true);
      }
      if !exists_ {
        if !body.Hello? {
          return Err(HelloMustComeFirst);
        }
      }
      peers := peers[sid := Peer(source, now)];
      return Ok(false);
    }

    method HandleNextMessage(source: DerpKey, sid: SessionId, body: Body, now: Time, listenOk: bool)
      returns (r: Result<Option<Reply>, Refusal>)
      modifies this, host
      ensures (View(), r) == Handle(old(View()), lastNode, host.forwarding, host.ready, listenOk, source, sid, body, now)
      ensures lastNode == old(lastNode)
    {
      var tracked := TrackPeer(sid, source, body, now);
      if tracked.Err? {
        return Err(tracked.error);
      }
      if tracked.value {
        host.CloseUdpSession(sid);
        return Ok(None);
      }
      match body {
        case Ping => return Ok(Some(PongReply));
        case Pong => return Ok(None);
        case Hello => return Ok(Some(HelloReply(lastNode)));
        case NodeUpdate(node) =>
          inbox := inbox + [PeerUpdate(sid, Some(node))];
          return Ok(Some(NodeReply(lastNode)));
        case OpenUdp(requestId, port) =>
          if requestId == "" {
            return Ok(Some(UdpReply(requestId, port, Some(RequestIdMissing))));
          }
          if port == 0 {
            return Ok(Some(UdpReply(requestId, port, Some(PortZero))));
          }
          var outcome := host.OpenUdp(sid, port, listenOk);
          return Ok(Some(UdpReply(requestId, port, UdpAnswer(outcome))));
        case _ => return Err(UnsupportedType);
      }
    }

    /** Ends every lease of the removed sessions, in order. */
    method NotifyClosed(removed: seq<SessionId>)
      modifies host
      ensures host.View() == CloseSessions(old(host.View()), removed)
    {
      for i := 0 to |removed|
        invariant host.View() == CloseSessions(old(host.View()), removed[..i])
      {
        host.CloseUdpSession(removed[i]);
        CloseSessionsAppend(old(host.View()), removed[..i], removed[i]);
        assert removed[..i + 1] == removed[..i] + [removed[i]];
      }
      assert removed[..|removed|] == removed;
    }

    /** Removes `victims` in some order, announcing each removal. */
    method RemoveAll(victims: set<SessionId>) returns (removed: seq<SessionId>)
      requires victims <= peers.Keys
      modifies this`peers, this`inbox
      ensures Enumerates(removed, victims)
      ensures peers == old(peers) - victims
      ensures inbox == old(inbox) + Removals(removed)
    {
      removed := [];
      var todo := victims;
      while todo != {}
        invariant todo <= victims && Enumerates(removed, victims - todo)
        invariant peers == old(peers) - (victims - todo)
        invariant inbox == old(inbox) + Removals(removed)
      {
        var sid :| sid in todo;
        peers := peers - {sid};
        inbox := inbox + [PeerUpdate(sid, None)];
        assert Removals(removed + [sid]) == Removals(removed) + [PeerUpdate(sid, None)];
        removed := removed + [sid];
        todo := todo - {sid};
      }
    }

    /** The relay lost a key: every session last heard from it is gone. */
    method RemoveDerpPeers(key: DerpKey) returns (removed: seq<SessionId>)
      modifies this, host
      ensures Enumerates(removed, FromSource(old(peers), key))
      ensures View() == Effect(old(peers) - FromSource(old(peers), key), old(inbox) + Removals(removed),
                               CloseSessions(old(host.View()), removed))
      ensures lastNode == old(lastNode)
    {
      removed := RemoveAll(FromSource(peers, key));
      NotifyClosed(removed);
    }

    /** The reaper's tick: every session silent for the whole timeout is gone. */
    method ExpirePeers(now: Time) returns (removed: seq<SessionId>)
      modifies this, host
      ensures Enumerates(removed, Silent(old(peers), now))
      ensures View() == Effect(old(peers) - Silent(old(peers), now), old(inbox) + Removals(removed),
                               CloseSessions(old(host.View()), removed))
      ensures lastNode == old(lastNode)
    {
      removed := RemoveAll(Silent(peers, now));
      NotifyClosed(removed);
    }
  }
}
