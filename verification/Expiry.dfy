/** How long a silent session lives, over timed runs of the peer table. */
module Expiry {
  import opened Wrappers
  import opened Overlay
  import opened Sessions

  /** A message, a key the relay lost, or a tick of the reaper. */
  datatype Event =
    | Heard(sid: SessionId, source: DerpKey, body: Body, at: Time)
    | KeyGone(key: DerpKey, at: Time)
    | TickAt(at: Time)

  function Step(peers: PeerTable, e: Event): PeerTable {
    match e
    case Heard(sid, source, body, at) => Track(peers, sid, source, body, at).0
    case KeyGone(key, _) => peers - FromSource(peers, key)
    case TickAt(at) => peers - Silent(peers, at)
  }

  function Run(peers: PeerTable, events: seq<Event>): PeerTable
    decreases |events|
  {
    if events == [] then peers else Run(Step(peers, events[0]), events[1..])
  }

  /** A message that keeps the session if it is live. */
  predicate Refreshes(e: Event, sid: SessionId) {
    e.Heard? && e.sid == sid && e.source != 0 && !e.body.Goodbye?
  }

  /** The session's record after one more event, if it lives on. */
  function Refreshed(record: Peer, e: Event, sid: SessionId): Peer {
    if Refreshes(e, sid) then Peer(e.source, e.at) else record
  }

  /** Where and when the session was last heard from before event `n`. */
  function LastRecord(first: Peer, events: seq<Event>, n: nat, sid: SessionId): Peer
    requires n <= |events|
  {
    if n == 0 then first else Refreshed(LastRecord(first, events, n - 1, sid), events[n - 1], sid)
  }

  /** The event spares a session with this record: it is not the loss of the key
      the session was last heard from, nor a tick that finds it silent for the
      whole timeout. */
  predicate Spares(e: Event, record: Peer) {
    match e
    case Heard(_, _, _, _) => true
    case KeyGone(key, _) => key != record.source
    case TickAt(at) => at < record.lastSeen + INACTIVE_TIMEOUT
  }

  ghost predicate SparedThroughout(first: Peer, events: seq<Event>, sid: SessionId) {
    forall n :: 0 <= n < |events| ==> Spares(events[n], LastRecord(first, events, n, sid))
  }

  /** The session neither leaves nor starts anew. */
  ghost predicate Continues(events: seq<Event>, sid: SessionId) {
    forall n :: 0 <= n < |events| && events[n].Heard? && events[n].sid == sid ==> !events[n].body.Goodbye? && !events[n].body.Hello?
  }

  lemma {:induction false} LastRecordShift(first: Peer, events: seq<Event>, n: nat, sid: SessionId)
    requires 0 < n <= |events|
    ensures LastRecord(first, events, n, sid) == LastRecord(Refreshed(first, events[0], sid), events[1..], n - 1, sid)
  {
    if n > 1 {
      LastRecordShift(first, events, n - 1, sid);
    }
  }

  lemma SparedShift(first: Peer, events: seq<Event>, sid: SessionId)
    requires events != []
    ensures SparedThroughout(first, events, sid) <==>
            Spares(events[0], first) && SparedThroughout(Refreshed(first, events[0], sid), events[1..], sid)
  {
    hide Spares, Refreshed;
    var later := Refreshed(first, events[0], sid);
    forall n | 0 < n < |events| ensures LastRecord(first, events, n, sid) == LastRecord(later, events[1..], n - 1, sid) {
      LastRecordShift(first, events, n, sid);
    }
    if Spares(events[0], first) && SparedThroughout(later, events[1..], sid) {
      forall n | 0 <= n < |events| ensures Spares(events[n], LastRecord(first, events, n, sid)) {
        if n > 0 {
          assert events[1..][n - 1] == events[n];
        }
      }
    }
    if SparedThroughout(first, events, sid) {
      forall n | 0 <= n < |events[1..]| ensures Spares(events[1..][n], LastRecord(later, events[1..], n, sid)) {
        assert Spares(events[n + 1], LastRecord(first, events, n + 1, sid));
      }
    }
  }

  lemma {:induction false} GoneStaysGone(peers: PeerTable, events: seq<Event>, sid: SessionId)
    requires sid !in peers && Continues(events, sid)
    ensures sid !in Run(peers, events)
    decreases |events|
  {
    if events != [] {
      assert sid !in Step(peers, events[0]);
      GoneStaysGone(Step(peers, events[0]), events[1..], sid);
    }
  }

  lemma OneEvent(peers: PeerTable, e: Event, sid: SessionId)
    requires sid in peers && sid != "" && Continues([e], sid)
    ensures sid in Step(peers, e) <==> Spares(e, peers[sid])
    ensures sid in Step(peers, e) ==> Step(peers, e)[sid] == Refreshed(peers[sid], e, sid)
  {
    assert [e][0] == e;
  }

  /** A session survives exactly if at every tick it had been heard from less than
      the timeout before, and no key was lost while it was the one the session was
      last heard from. Its record is then that of its last accepted message. */
  lemma {:induction false} LiveIffSpared(peers: PeerTable, events: seq<Event>, sid: SessionId)
    requires sid in peers && sid != "" && Continues(events, sid)
    ensures sid in Run(peers, events) <==> SparedThroughout(peers[sid], events, sid)
    ensures sid in Run(peers, events) ==> Run(peers, events)[sid] == LastRecord(peers[sid], events, |events|, sid)
    decreases |events|
  {
    hide Step, Spares, Refreshed, SparedThroughout;
    if events == [] {
      assert SparedThroughout(peers[sid], events, sid) by {
        NothingToSpare(peers[sid], events, sid);
      }
    } else {
      OneEvent(peers, events[0], sid);
      SparedShift(peers[sid], events, sid);
      LastRecordShift(peers[sid], events, |events|, sid);
      var next := Step(peers, events[0]);
      if sid in next {
        LiveIffSpared(next, events[1..], sid);
      } else {
        GoneStaysGone(next, events[1..], sid);
      }
    }
  }

  lemma NothingToSpare(first: Peer, events: seq<Event>, sid: SessionId)
    requires events == []
    ensures SparedThroughout(first, events, sid)
  {
  }

  /** Ticks follow each other, and `previous`, within the interval. */
  ghost predicate TicksDense(previous: Time, events: seq<Event>)
    decreases |events|
  {
    events == [] ||
    if events[0].TickAt? then events[0].at <= previous + KEEP_ALIVE_INTERVAL && TicksDense(events[0].at, events[1..])
    else TicksDense(previous, events[1..])
  }

  ghost predicate Deadline(peer: Peer, e: Event) {
    && e.TickAt?
    && peer.lastSeen + 120 * SECOND <= e.at < peer.lastSeen + 150 * SECOND
  }

  /** A session that falls silent is gone after a tick less than the timeout plus
      one interval after it was last heard from. Up to that tick, which comes not
      before the timeout, only the loss of its key can have ended it. */
  lemma {:induction false} SilentSessionRemovedInTime(peers: PeerTable, events: seq<Event>, sid: SessionId, previous: Time, last: nat)
    returns (n: nat)
    requires sid in peers && sid != ""
    requires forall k :: 0 <= k < |events| && events[k].Heard? ==> events[k].sid != sid
    requires previous < peers[sid].lastSeen + INACTIVE_TIMEOUT && TicksDense(previous, events)
    requires last < |events| && events[last].TickAt? && peers[sid].lastSeen + INACTIVE_TIMEOUT <= events[last].at
    ensures n <= last && Deadline(peers[sid], events[n])
    ensures sid in Run(peers, events[..n]) <==>
            forall k :: 0 <= k < n && events[k].KeyGone? ==> events[k].key != peers[sid].source
    ensures sid !in Run(peers, events[..n + 1]) && sid !in Run(peers, events)
  {
    n := FirstDeadline(peers[sid], events, previous, last);
    forall k: nat | k <= |events| ensures LastRecord(peers[sid], events, k, sid) == peers[sid] {
      RecordUnchanged(peers[sid], events, k, sid);
    }
    hide TicksDense;
    SilentUpTo(peers, events, n, sid);
    assert events[..n + 1][n] == events[n];
    LiveIffSpared(peers, events[..n + 1], sid);
    RecordUnchanged(peers[sid], events[..n + 1], n, sid);
    LiveIffSpared(peers, events, sid);
    assert !Spares(events[n], peers[sid]);
  }

  lemma {:induction false} RecordUnchanged(first: Peer, events: seq<Event>, n: nat, sid: SessionId)
    requires n <= |events| && forall k :: 0 <= k < |events| && events[k].Heard? ==> events[k].sid != sid
    ensures LastRecord(first, events, n, sid) == first
  {
    if n > 0 {
      RecordUnchanged(first, events, n - 1, sid);
    }
  }

  lemma SilentUpTo(peers: PeerTable, events: seq<Event>, n: nat, sid: SessionId)
    requires sid in peers && sid != "" && n <= |events|
    requires forall k :: 0 <= k < |events| && events[k].Heard? ==> events[k].sid != sid
    requires forall k :: 0 <= k < n && events[k].TickAt? ==> events[k].at < peers[sid].lastSeen + INACTIVE_TIMEOUT
    ensures sid in Run(peers, events[..n]) <==>
            forall k :: 0 <= k < n && events[k].KeyGone? ==> events[k].key != peers[sid].source
  {
    var before := events[..n];
    LiveIffSpared(peers, before, sid);
    forall k | 0 <= k < n ensures LastRecord(peers[sid], before, k, sid) == peers[sid] {
      RecordUnchanged(peers[sid], before, k, sid);
    }
    forall k | 0 <= k < n
      ensures Spares(before[k], LastRecord(peers[sid], before, k, sid)) <==>
        (events[k].KeyGone? ==> events[k].key != peers[sid].source)
    {
    }
  }

  /** The first tick at or after the end of the timeout comes within an interval. */
  lemma {:induction false} FirstDeadline(peer: Peer, events: seq<Event>, previous: Time, last: nat) returns (n: nat)
    requires previous < peer.lastSeen + INACTIVE_TIMEOUT && TicksDense(previous, events)
    requires last < |events| && events[last].TickAt? && peer.lastSeen + INACTIVE_TIMEOUT <= events[last].at
    ensures n <= last && Deadline(peer, events[n])
    ensures forall k :: 0 <= k < n && events[k].TickAt? ==> events[k].at < peer.lastSeen + INACTIVE_TIMEOUT
    decreases |events|
  {
    var e := events[0];
    if e.TickAt? && peer.lastSeen + INACTIVE_TIMEOUT <= e.at {
      n := 0;
    } else {
      var k := FirstDeadline(peer, events[1..], if e.TickAt? then e.at else previous, last - 1);
      n := k + 1;
      forall j | 0 <= j < n && events[j].TickAt? ensures events[j].at < peer.lastSeen + INACTIVE_TIMEOUT {
        assert j > 0 ==> events[j] == events[1..][j - 1];
      }
    }
  }

  ghost predicate InOrder(events: seq<Event>) {
    forall i, j :: 0 <= i < j < |events| ==> events[i].at <= events[j].at
  }

  lemma {:induction false} LastHeardLatest(first: Peer, events: seq<Event>, n: nat, sid: SessionId, j: nat)
    requires InOrder(events) && j < n <= |events| && Refreshes(events[j], sid)
    ensures events[j].at <= LastRecord(first, events, n, sid).lastSeen
  {
    if !Refreshes(events[n - 1], sid) {
      LastHeardLatest(first, events, n - 1, sid, j);
    }
  }

  /** The arrival of keep-alive `k`, sent one interval after its predecessor. */
  function Arrival(start: Time, delays: seq<Option<Time>>, k: nat): Time
    requires k < |delays| && delays[k].Some?
  {
    start + k * KEEP_ALIVE_INTERVAL + delays[k].value
  }

  /** Delays vary by less than one interval and never are three keep-alives in a
      row lost. The first is the Hello, which arrived. */
  ghost predicate Tolerable(delays: seq<Option<Time>>) {
    && delays != [] && delays[0].Some?
    && (forall k :: 0 <= k < |delays| && delays[k].Some? ==> 0 <= delays[k].value < KEEP_ALIVE_INTERVAL)
    && (forall k :: 0 <= k < |delays| - 2 ==> delays[k].Some? || delays[k + 1].Some? || delays[k + 2].Some?)
  }

  lemma {:induction false} RecentArrival(start: Time, delays: seq<Option<Time>>, t: Time, k: nat) returns (r: nat)
    requires Tolerable(delays) && k < |delays| && delays[k].Some?
    requires Arrival(start, delays, k) < t < start + |delays| * KEEP_ALIVE_INTERVAL
    ensures r < |delays| && delays[r].Some? && Arrival(start, delays, r) < t < Arrival(start, delays, r) + INACTIVE_TIMEOUT
    decreases |delays| - k
  {
    if k + 1 < |delays| && delays[k + 1].Some? && Arrival(start, delays, k + 1) < t {
      r := RecentArrival(start, delays, t, k + 1);
    } else if k + 2 < |delays| && delays[k + 2].Some? && Arrival(start, delays, k + 2) < t {
      r := RecentArrival(start, delays, t, k + 2);
    } else if k + 3 < |delays| && delays[k + 3].Some? && Arrival(start, delays, k + 3) < t {
      r := RecentArrival(start, delays, t, k + 3);
    } else {
      r := k;
      assert k + 3 < |delays| ==> delays[k + 1].Some? || delays[k + 2].Some? || delays[k + 3].Some?;
    }
  }

  /** The keep-alives that arrive before the last event are among the events. */
  ghost predicate Delivered(events: seq<Event>, sid: SessionId, start: Time, delays: seq<Option<Time>>) {
    forall k :: 0 < k < |delays| && delays[k].Some? && events != [] && Arrival(start, delays, k) < events[|events| - 1].at ==>
      exists j :: 0 <= j < |events| && Refreshes(events[j], sid) && events[j].at == Arrival(start, delays, k)
  }

  /** Two lost keep-alives in a row are tolerated: while the client keeps sending,
      its session ends only if the relay loses the key it was last heard from. */
  lemma {:induction false} KeepAlivesKeepSession(peers: PeerTable, events: seq<Event>, sid: SessionId, start: Time, delays: seq<Option<Time>>)
    requires sid in peers && sid != "" && Continues(events, sid) && InOrder(events) && Tolerable(delays)
    requires peers[sid].lastSeen == Arrival(start, delays, 0)
    requires forall n :: 0 <= n < |events| ==>
               Arrival(start, delays, 0) < events[n].at < start + |delays| * KEEP_ALIVE_INTERVAL
    requires Delivered(events, sid, start, delays)
    ensures sid in Run(peers, events) <==>
            forall n :: 0 <= n < |events| && events[n].KeyGone? ==> events[n].key != LastRecord(peers[sid], events, n, sid).source
  {
    var first := peers[sid];
    forall n | 0 <= n < |events| && events[n].TickAt? ensures Spares(events[n], LastRecord(first, events, n, sid)) {
      HeardLately(first, events, sid, start, delays, n);
    }
    LiveIffSpared(peers, events, sid);
    hide LastRecord;
    forall n | 0 <= n < |events|
      ensures Spares(events[n], LastRecord(first, events, n, sid)) <==>
        (events[n].KeyGone? ==> events[n].key != LastRecord(first, events, n, sid).source)
    {
    }
  }

  lemma HeardLately(first: Peer, events: seq<Event>, sid: SessionId, start: Time, delays: seq<Option<Time>>, n: nat)
    requires InOrder(events) && Tolerable(delays) && first.lastSeen == Arrival(start, delays, 0)
    requires forall n :: 0 <= n < |events| ==>
               Arrival(start, delays, 0) < events[n].at < start + |delays| * KEEP_ALIVE_INTERVAL
    requires Delivered(events, sid, start, delays) && n < |events|
    ensures events[n].at < LastRecord(first, events, n, sid).lastSeen + INACTIVE_TIMEOUT
  {
    var k := RecentArrival(start, delays, events[n].at, 0);
    if k == 0 {
      LastHeardGrows(first, events, n, sid);
    } else {
      assert events[n].at <= events[|events| - 1].at;
      var j :| 0 <= j < |events| && Refreshes(events[j], sid) && events[j].at == Arrival(start, delays, k);
      LastHeardLatest(first, events, n, sid, j);
    }
  }

  lemma {:induction false} LastHeardGrows(first: Peer, events: seq<Event>, n: nat, sid: SessionId)
    requires n <= |events| && forall k :: 0 <= k < |events| ==> first.lastSeen <= events[k].at
    ensures first.lastSeen <= LastRecord(first, events, n, sid).lastSeen
  {
    if n > 0 {
      LastHeardGrows(first, events, n - 1, sid);
    }
  }
}
