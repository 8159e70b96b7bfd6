/** Announcing how each peer is connected, once per change. */
module PathTracker {
  import opened Wrappers
  import opened Orders

  /** A node key and its short form, which need not be unique. */
  datatype NodeKey = NodeKey(id: int, short: string)

  datatype Kind = Direct | Derp | PeerRelay

  datatype Path = Path(kind: Kind, endpoint: string)

  datatype PeerStatus = PeerStatus(active: bool, ips: seq<string>, curAddr: string, relay: string, peerRelay: string)

  type Status = map<NodeKey, Option<PeerStatus>>

  datatype Event = Event(peer: string, path: Path)

  /** The relay counts only when nothing else is known; a direct address wins over
      a peer relay. */
  function CurrentPath(peer: Option<PeerStatus>): Option<Path> {
    if peer.None? || !peer.value.active then None
    else
      var p := peer.value;
      if p.relay != "" && p.curAddr == "" && p.peerRelay == "" then Some(Path(Derp, p.relay))
      else if p.curAddr != "" then Some(Path(Direct, p.curAddr))
      else if p.peerRelay != "" then Some(Path(PeerRelay, p.peerRelay))
      else None
  }

  /** An active peer has a path exactly if any of its addresses is known. */
  lemma ActivePathKnown(p: PeerStatus)
    ensures CurrentPath(Some(p)).Some? <==> p.active && (p.relay != "" || p.curAddr != "" || p.peerRelay != "")
    ensures CurrentPath(Some(p)).Some? ==> CurrentPath(Some(p)).value.endpoint != ""
  {
  }

  /** The path in terms of the status alone: a current address is direct; else a
      peer relay counts; else the relay. */
  ghost predicate Reports(p: PeerStatus, path: Path) {
    && p.active
    && (path.kind == Direct <==> p.curAddr != "")
    && (path.kind == PeerRelay <==> p.curAddr == "" && p.peerRelay != "")
    && (path.kind == Derp <==> p.curAddr == "" && p.peerRelay == "" && p.relay != "")
    && match path.kind
       case Direct => path.endpoint == p.curAddr
       case PeerRelay => path.endpoint == p.peerRelay
       case Derp => path.endpoint == p.relay
  }

  /** What is reported is determined by the status. */
  lemma CurrentPathReports(p: PeerStatus, path: Path)
    ensures CurrentPath(Some(p)) == Some(path) <==> Reports(p, path)
    ensures CurrentPath(None).None?
  {
  }

  ghost predicate ReportedFor(status: Status, key: NodeKey, path: Path) {
    key in status && status[key].Some? && Reports(status[key].value, path)
  }

  /** An event is about a peer of the status, under its first address or else its
      short key, and reports its path. */
  ghost predicate EventAbout(status: Status, key: NodeKey, event: Event) {
    && ReportedFor(status, key, event.path)
    && event.peer == if status[key].value.ips == [] then key.short else status[key].value.ips[0]
  }

  function PathOf(status: Status, key: NodeKey): Option<Path> {
    if key in status then CurrentPath(status[key]) else None
  }

  function ActivePaths(status: Status): map<NodeKey, Path> {
    map key | key in status && PathOf(status, key).Some? :: PathOf(status, key).value
  }

  function EventOf(status: Status, key: NodeKey): Event {
    var peer := if key in status then status[key] else None;
    Event(if peer.Some? && peer.value.ips != [] then peer.value.ips[0] else key.short,
          if PathOf(status, key).Some? then PathOf(status, key).value else Path(Direct, ""))
  }

  /** The active peers whose path is not the one tracked for them. */
  function ChangedPeers(before: map<NodeKey, Path>, status: Status): set<NodeKey> {
    set key | key in status && PathOf(status, key).Some? && !(key in before && before[key] == PathOf(status, key).value)
  }

  function Rank(k: Kind): int {
    match k case Direct => 1 case Derp => 2 case PeerRelay => 3
  }

  /** Events are listed by peer, then kind of path, then endpoint. */
  predicate EventLe(a: Event, b: Event) {
    if a.peer == b.peer then
      if a.path.kind == b.path.kind then LexLe(a.path.endpoint, b.path.endpoint)
      else Rank(a.path.kind) < Rank(b.path.kind)
    else LexLe(a.peer, b.peer)
  }

  lemma EventTotalOrder()
    ensures TotalOrder(EventLe)
  {
    LexTotalOrder();
    hide LexLe;
    forall a, b ensures EventLe(a, b) || EventLe(b, a) {
      assert LexLe(a.peer, b.peer) || LexLe(b.peer, a.peer);
      assert LexLe(a.path.endpoint, b.path.endpoint) || LexLe(b.path.endpoint, a.path.endpoint);
    }
    forall a, b | EventLe(a, b) && EventLe(b, a) ensures a == b {
    }
    forall a, b, c | EventLe(a, b) && EventLe(b, c) ensures EventLe(a, c) {
    }
  }

  ghost predicate Lists(events: seq<Event>, status: Status, peers: set<NodeKey>, order: seq<NodeKey>) {
    Enumerates(order, peers) && multiset(events) == multiset(Map(key => EventOf(status, key), order))
  }

  /** The events are one for each changed peer, sorted. */
  ghost predicate Announces(events: seq<Event>, before: map<NodeKey, Path>, status: Status) {
    SortedBy(EventLe, events) && exists order :: Lists(events, status, ChangedPeers(before, status), order)
  }

  /** What is announced is determined, whatever order the map is visited in and
      however the sort breaks ties. */
  lemma AnnouncementUnique(a: seq<Event>, b: seq<Event>, before: map<NodeKey, Path>, status: Status)
    requires Announces(a, before, status) && Announces(b, before, status)
    ensures a == b
  {
    var peers := ChangedPeers(before, status);
    var oa :| Lists(a, status, peers, oa);
    var ob :| Lists(b, status, peers, ob);
    EnumeratedImages(key => EventOf(status, key), oa, ob, peers);
    EventTotalOrder();
    SortedPermutationsEqual(EventLe, a, b);
  }

  /** The paths are exactly those the status reports. */
  ghost predicate PathsReported(paths: map<NodeKey, Path>, status: Status) {
    forall key, path :: (key in paths && paths[key] == path) <==> ReportedFor(status, key, path)
  }

  /** Every event is about a peer among these, and every one of them has its event. */
  ghost predicate EventsReported(events: seq<Event>, status: Status, peers: set<NodeKey>) {
    && |events| == |peers|
    && (forall i :: 0 <= i < |events| ==> exists key :: key in peers && EventAbout(status, key, events[i]))
    && (forall key :: key in peers ==> exists i :: 0 <= i < |events| && EventAbout(status, key, events[i]))
  }

  lemma TrackedReported(status: Status)
    ensures PathsReported(ActivePaths(status), status)
  {
    forall key, path
      ensures (key in ActivePaths(status) && ActivePaths(status)[key] == path) <==> ReportedFor(status, key, path)
    {
      if key in status && status[key].Some? {
        CurrentPathReports(status[key].value, path);
      }
    }
  }

  lemma EventReported(status: Status, key: NodeKey)
    requires PathOf(status, key).Some?
    ensures EventAbout(status, key, EventOf(status, key))
  {
    CurrentPathReports(status[key].value, PathOf(status, key).value);
  }

  lemma ListedEvent(events: seq<Event>, status: Status, peers: set<NodeKey>, order: seq<NodeKey>, i: nat) returns (key: NodeKey)
    requires Lists(events, status, peers, order) && i < |events|
    ensures key in peers && events[i] == EventOf(status, key)
  {
    hide EventOf;
    var images := Map(key => EventOf(status, key), order);
    assert events[i] in multiset(images);
    var j :| 0 <= j < |images| && images[j] == events[i];
    key := order[j];
    assert key in order;
  }

  lemma ListedPeer(events: seq<Event>, status: Status, peers: set<NodeKey>, order: seq<NodeKey>, key: NodeKey) returns (i: nat)
    requires Lists(events, status, peers, order) && key in peers
    ensures i < |events| && events[i] == EventOf(status, key)
  {
    hide EventOf;
    var images := Map(key => EventOf(status, key), order);
    assert key in order;
    var j :| 0 <= j < |order| && order[j] == key;
    assert images[j] in multiset(images);
    assert images[j] in events;
    i :| 0 <= i < |events| && events[i] == images[j];
  }

  lemma ListedCount(events: seq<Event>, status: Status, peers: set<NodeKey>, order: seq<NodeKey>)
    requires Lists(events, status, peers, order)
    ensures |events| == |peers|
  {
    hide EventOf;
    assert |multiset(events)| == |events| && |multiset(Map(key => EventOf(status, key), order))| == |order|;
    EnumerationSize(order, peers);
  }

  lemma ListedEventAbout(events: seq<Event>, status: Status, peers: set<NodeKey>, order: seq<NodeKey>, i: nat)
    requires Lists(events, status, peers, order) && i < |events| && forall key :: key in peers ==> PathOf(status, key).Some?
    ensures exists key :: key in peers && EventAbout(status, key, events[i])
  {
    hide EventOf, EventAbout, Lists, PathOf;
    var key := ListedEvent(events, status, peers, order, i);
    EventReported(status, key);
  }

  lemma ListedPeerHasEvent(events: seq<Event>, status: Status, peers: set<NodeKey>, order: seq<NodeKey>, key: NodeKey)
    requires Lists(events, status, peers, order) && key in peers && PathOf(status, key).Some?
    ensures exists i :: 0 <= i < |events| && EventAbout(status, key, events[i])
  {
    hide EventOf, EventAbout, Lists, PathOf;
    var i := ListedPeer(events, status, peers, order, key);
    EventReported(status, key);
  }

  lemma ListedReported(events: seq<Event>, status: Status, peers: set<NodeKey>, order: seq<NodeKey>)
    requires Lists(events, status, peers, order) && forall key :: key in peers ==> PathOf(status, key).Some?
    ensures EventsReported(events, status, peers)
  {
    hide EventAbout, PathOf, Lists;
    ListedCount(events, status, peers, order);
    forall i | 0 <= i < |events| ensures exists key :: key in peers && EventAbout(status, key, events[i]) {
      ListedEventAbout(events, status, peers, order, i);
    }
    forall key | key in peers ensures exists i :: 0 <= i < |events| && EventAbout(status, key, events[i]) {
      ListedPeerHasEvent(events, status, peers, order, key);
    }
  }

  lemma AnnouncedReported(events: seq<Event>, before: map<NodeKey, Path>, status: Status)
    requires Announces(events, before, status)
    ensures EventsReported(events, status, ChangedPeers(before, status))
  {
    var order :| Lists(events, status, ChangedPeers(before, status), order);
    assert forall key :: key in ChangedPeers(before, status) ==> PathOf(status, key).Some?;
    hide Lists, ChangedPeers, PathOf, EventsReported;
    ListedReported(events, status, ChangedPeers(before, status), order);
  }

  /** The peers that changed, in terms of the status: some path is reported for them
      that was not the one tracked. */
  lemma ChangedMeans(before: map<NodeKey, Path>, status: Status, key: NodeKey)
    ensures key in ChangedPeers(before, status) <==>
      exists path :: ReportedFor(status, key, path) && !(key in before && before[key] == path)
  {
    TrackedReported(status);
    hide ReportedFor, PathOf;
    if key in ChangedPeers(before, status) {
      var path := PathOf(status, key).value;
      assert ActivePaths(status)[key] == path;
      assert ReportedFor(status, key, path);
    }
  }

  /** Events come by peer, a peer's direct paths before its relays and those before
      its peer relays, and equal kinds by endpoint. */
  lemma EventsOrdered(events: seq<Event>, i: nat, j: nat)
    requires SortedBy(EventLe, events) && i < j < |events|
    ensures LexLe(events[i].peer, events[j].peer)
    ensures events[i].peer == events[j].peer ==>
              && (events[j].path.kind == Direct ==> events[i].path.kind == Direct)
              && (events[i].path.kind == PeerRelay ==> events[j].path.kind == PeerRelay)
    ensures events[i].peer == events[j].peer && events[i].path.kind == events[j].path.kind ==>
              LexLe(events[i].path.endpoint, events[j].path.endpoint)
  {
    LexConnected(events[i].peer, events[i].peer);
    assert EventLe(events[i], events[j]);
  }

  class PeerConnectionTracker {
    var paths: map<NodeKey, Path>

    constructor ()
      ensures paths == map[]
    {
      paths := map[];
    }

    method Update(status: Status) returns (events: seq<Event>)
      modifies this
      ensures paths == ActivePaths(status)
      ensures Announces(events, old(paths), status)
      // In terms of the status: which path is tracked, and what an event says.
      ensures PathsReported(paths, status)
      ensures EventsReported(events, status, ChangedPeers(old(paths), status))
    {
      hide PathsReported, EventsReported;
      events := [];
      var seen: set<NodeKey> := {};
      ghost var changed: seq<NodeKey> := [];
      ghost var before := paths;
      var todo := status.Keys;
      while todo != {}
        invariant seen == status.Keys - todo && todo <= status.Keys
        invariant forall key :: key in seen ==>
            (key in paths <==> PathOf(status, key).Some?) && (key in paths ==> paths[key] == PathOf(status, key).value)
        invariant forall key :: key !in seen ==> (key in paths <==> key in before) && (key in paths ==> paths[key] == before[key])
        invariant Enumerates(changed, ChangedPeers(before, status) * seen)
        invariant events == Map(key => EventOf(status, key), changed)
      {
        var key :| key in todo;
        todo := todo - {key};
        seen := seen + {key};
        var path := CurrentPath(status[key]);
        if path.None? {
          paths := paths - {key};
          assert ChangedPeers(before, status) * seen == ChangedPeers(before, status) * (seen - {key});
          continue;
        }
        if key in paths && paths[key] == path.value {
          assert ChangedPeers(before, status) * seen == ChangedPeers(before, status) * (seen - {key});
          continue;
        }
        paths := paths[key := path.value];
        var peerLabel := key.short;
        if |status[key].value.ips| > 0 {
          peerLabel := status[key].value.ips[0];
        }
        assert ChangedPeers(before, status) * seen == ChangedPeers(before, status) * (seen - {key}) + {key};
        changed := changed + [key];
        events := events + [Event(peerLabel, path.value)];
      }
      assert ChangedPeers(before, status) * seen == ChangedPeers(before, status);
      var gone := paths.Keys - seen;
      while gone != {}
        invariant gone == paths.Keys - seen
        invariant forall key :: key in seen ==>
            (key in paths <==> PathOf(status, key).Some?) && (key in paths ==> paths[key] == PathOf(status, key).value)
      {
        var key :| key in gone;
        paths := paths - {key};
        gone := gone - {key};
      }
      assert paths == ActivePaths(status);
      EventTotalOrder();
      SortSorted(EventLe, events);
      events := Sort(EventLe, events);
      assert Lists(events, status, ChangedPeers(before, status), changed);
      assert Announces(events, before, status);
      TrackedReported(status);
      AnnouncedReported(events, before, status);
    }
  }

  /** The statuses the monitor's ticks obtained; a failed query is skipped. */
  function Obtained(ticks: seq<Option<Status>>): seq<Status> {
    if ticks == [] then []
    else
      var before := Obtained(ticks[..|ticks| - 1]);
      var last := ticks[|ticks| - 1];
      if last.Some? then before + [last.value] else before
  }

  /** What a tracker holds after these statuses. */
  function Tracked(statuses: seq<Status>): map<NodeKey, Path> {
    if statuses == [] then map[] else ActivePaths(statuses[|statuses| - 1])
  }

  /** The peers that have a path in status `i` and had another one, or none, in
      the status before. */
  function NewlyConnected(statuses: seq<Status>, i: nat): set<NodeKey>
    requires i < |statuses|
  {
    set key | key in statuses[i] && PathOf(statuses[i], key).Some? && (i == 0 || PathOf(statuses[i - 1], key) != PathOf(statuses[i], key))
  }

  ghost predicate AnnouncesNew(events: seq<Event>, statuses: seq<Status>, i: nat)
    requires i < |statuses|
  {
    SortedBy(EventLe, events) && exists order :: Lists(events, statuses[i], NewlyConnected(statuses, i), order)
  }

  /** In terms of the statuses: a peer is newly connected if some path is reported
      for it now that was not reported for it before. */
  lemma NewlyConnectedMeans(statuses: seq<Status>, i: nat, key: NodeKey)
    requires i < |statuses|
    ensures key in NewlyConnected(statuses, i) <==>
      exists path :: ReportedFor(statuses[i], key, path) && (i == 0 || !ReportedFor(statuses[i - 1], key, path))
  {
    var before := if i == 0 then map[] else ActivePaths(statuses[i - 1]);
    assert key in NewlyConnected(statuses, i) <==> key in ChangedPeers(before, statuses[i]);
    ChangedMeans(before, statuses[i], key);
    if i > 0 {
      TrackedReported(statuses[i - 1]);
    }
    hide ReportedFor, ChangedPeers, NewlyConnected, ActivePaths;
  }

  /** Each of them is announced once, with the path reported for it. */
  lemma NewlyReported(statuses: seq<Status>, i: nat, events: seq<Event>)
    requires i < |statuses| && AnnouncesNew(events, statuses, i)
    ensures EventsReported(events, statuses[i], NewlyConnected(statuses, i))
  {
    var order :| Lists(events, statuses[i], NewlyConnected(statuses, i), order);
    assert forall key :: key in NewlyConnected(statuses, i) ==> PathOf(statuses[i], key).Some?;
    hide Lists, NewlyConnected, PathOf, EventsReported;
    ListedReported(events, statuses[i], NewlyConnected(statuses, i), order);
  }

  lemma AnnouncesNewPrefix(events: seq<Event>, statuses: seq<Status>, i: nat, next: Status)
    requires i < |statuses| && AnnouncesNew(events, statuses, i)
    ensures AnnouncesNew(events, statuses + [next], i)
  {
    var order :| Lists(events, statuses[i], NewlyConnected(statuses, i), order);
    assert NewlyConnected(statuses + [next], i) == NewlyConnected(statuses, i);
    assert Lists(events, (statuses + [next])[i], NewlyConnected(statuses + [next], i), order);
  }

  lemma AnnouncesNewLast(events: seq<Event>, statuses: seq<Status>, next: Status)
    requires Announces(events, Tracked(statuses), next)
    ensures AnnouncesNew(events, statuses + [next], |statuses|)
  {
    var before := Tracked(statuses);
    var order :| Lists(events, next, ChangedPeers(before, next), order);
    assert NewlyConnected(statuses + [next], |statuses|) == ChangedPeers(before, next);
    assert Lists(events, (statuses + [next])[|statuses|], NewlyConnected(statuses + [next], |statuses|), order);
  }

  /** Each status announced exactly the peers newly connected in it. */
  ghost predicate AllAnnounced(announced: seq<seq<Event>>, statuses: seq<Status>) {
    |announced| == |statuses| && forall i :: 0 <= i < |announced| ==> AnnouncesNew(announced[i], statuses, i)
  }

  lemma AnnouncedOnce(announced: seq<seq<Event>>, statuses: seq<Status>, events: seq<Event>, next: Status)
    requires AllAnnounced(announced, statuses) && Announces(events, Tracked(statuses), next)
    ensures AllAnnounced(announced + [events], statuses + [next]) && Tracked(statuses + [next]) == ActivePaths(next)
  {
    AnnouncesNewLast(events, statuses, next);
    hide Announces, AnnouncesNew, ActivePaths;
    forall i | 0 <= i < |announced| ensures AnnouncesNew(announced[i], statuses + [next], i) {
      AnnouncesNewPrefix(announced[i], statuses, i, next);
    }
  }

  /** Runs a tracker over the monitor's ticks: each status obtained announces
      exactly the peers newly connected in it, sorted. */
  method Monitor(ticks: seq<Option<Status>>) returns (announced: seq<seq<Event>>)
    ensures AllAnnounced(announced, Obtained(ticks))
  {
    var tracker := new PeerConnectionTracker();
    announced := [];
    assert ticks[..0] == [];
    hide Announces, ActivePaths, AnnouncesNew;
    for n := 0 to |ticks|
      invariant fresh(tracker) && tracker.paths == Tracked(Obtained(ticks[..n]))
      invariant AllAnnounced(announced, Obtained(ticks[..n]))
    {
      hide AllAnnounced, Tracked;
      assert ticks[..n + 1][..n] == ticks[..n];
      if ticks[n].Some? {
        var status := ticks[n].value;
        var events := tracker.Update(status);
        AnnouncedOnce(announced, Obtained(ticks[..n]), events, status);
        announced := announced + [events];
      }
    }
    assert ticks[..|ticks|] == ticks;
  }

  /** The same path is announced again only after the peer was away, inactive or
      on another path in between. */
  lemma ReannouncedOnlyAfterChange(statuses: seq<Status>, i: nat, j: nat, key: NodeKey)
    requires i < j < |statuses|
    requires key in NewlyConnected(statuses, i) && key in NewlyConnected(statuses, j)
    requires PathOf(statuses[i], key) == PathOf(statuses[j], key)
    ensures exists m :: i < m < j && PathOf(statuses[m], key) != PathOf(statuses[i], key)
  {
    assert i < j - 1 && PathOf(statuses[j - 1], key) != PathOf(statuses[i], key);
  }
}
