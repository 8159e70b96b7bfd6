/** The long poll that tells the local engine which peers exist. */
module Streaming {
  import opened Overlay
  import opened Orders
  import opened PeerStores

  datatype MapResponse = MapResponse(keepAlive: bool, peers: seq<Node>, peersRemoved: seq<int>)

  const KEEP_ALIVE := MapResponse(true, [], [])

  /** The engine's rule: a non-empty peer list replaces what it knew, an empty
      one changes nothing, and removals come last. */
  ghost function Believe(view: set<int>, res: MapResponse): set<int> {
    (if res.peers != [] then Ids(res.peers) else view) - (set i | 0 <= i < |res.peersRemoved| :: res.peersRemoved[i])
  }

  ghost function BelieveAll(view: set<int>, sent: seq<MapResponse>): set<int> {
    if sent == [] then view else Believe(BelieveAll(view, sent[..|sent| - 1]), sent[|sent| - 1])
  }

  ghost predicate IsUpdate(res: MapResponse, known: set<int>, peers: seq<Node>) {
    && !res.keepAlive
    && res.peers == peers
    && SortedBy((a: int, b: int) => a <= b, res.peersRemoved)
    && if peers == [] then Enumerates(res.peersRemoved, known) else res.peersRemoved == []
  }

  /** An update moves an engine that agrees with `known` to the IDs of the snapshot. */
  lemma UpdateConverges(res: MapResponse, known: set<int>, peers: seq<Node>)
    requires IsUpdate(res, known, peers)
    ensures Believe(known, res) == Ids(peers)
  {
    var removed := set i | 0 <= i < |res.peersRemoved| :: res.peersRemoved[i];
    if peers == [] {
      forall id | id in known ensures id in removed {
        assert id in res.peersRemoved;
      }
    }
  }

  lemma KeepAliveNeutral(view: set<int>)
    ensures Believe(view, KEEP_ALIVE) == view
  {
  }

  datatype Event = PeersChanged(snapshot: seq<Node>) | KeepAliveTick | Cancelled

  /** The snapshot most recently taken when `n` events have been handled. */
  function LastSnapshot(initial: seq<Node>, events: seq<Event>, n: nat): seq<Node>
    requires n <= |events|
  {
    if n == 0 then initial
    else if events[n - 1].PeersChanged? then events[n - 1].snapshot
    else LastSnapshot(initial, events, n - 1)
  }

  method IdsOf(peers: seq<Node>) returns (known: set<int>)
    ensures known == Ids(peers)
  {
    known := {};
    for i := 0 to |peers|
      invariant known == Ids(peers[..i])
    {
      known := known + {peers[i].id};
      assert peers[..i + 1][..i] == peers[..i];
      assert Ids(peers[..i + 1]) == Ids(peers[..i]) + {peers[i].id};
    }
    assert peers[..|peers|] == peers;
  }

  lemma IntOrder()
    ensures TotalOrder((a: int, b: int) => a <= b)
  {
  }

  method SortedIds(known: set<int>) returns (ids: seq<int>)
    ensures Enumerates(ids, known)
    ensures SortedBy((a: int, b: int) => a <= b, ids)
  {
    ids := Range(known);
    IntOrder();
    SortSorted((a: int, b: int) => a <= b, ids);
    var sorted := Sort((a: int, b: int) => a <= b, ids);
    PermutationEnumerates(ids, sorted, known);
    ids := sorted;
  }

  lemma {:induction false} DistinctCount<T>(s: seq<T>)
    ensures (forall i, j :: 0 <= i < j < |s| ==> s[i] != s[j]) <==> (forall x :: multiset(s)[x] <= 1)
  {
    if s != [] {
      var rest := s[..|s| - 1];
      var last := s[|s| - 1];
      DistinctCount(rest);
      assert s == rest + [last];
      if forall i, j :: 0 <= i < j < |s| ==> s[i] != s[j] {
        assert forall i, j :: 0 <= i < j < |rest| ==> rest[i] != rest[j];
        assert last !in rest;
      } else if forall i, j :: 0 <= i < j < |rest| ==> rest[i] != rest[j] {
        var i, j :| 0 <= i < j < |s| && s[i] == s[j];
        assert j == |s| - 1;
        assert rest[i] == last;
        assert multiset(s)[last] >= 2;
      } else {
        var x :| multiset(rest)[x] > 1;
        assert multiset(s)[x] > 1;
      }
    }
  }

  lemma PermutationEnumerates<T(!new)>(a: seq<T>, b: seq<T>, s: set<T>)
    requires Enumerates(a, s) && multiset(a) == multiset(b)
    ensures Enumerates(b, s)
  {
    DistinctCount(a);
    DistinctCount(b);
    forall x ensures x in b <==> x in s {
      assert x in b <==> x in multiset(b);
      assert x in a <==> x in multiset(a);
    }
  }

  /** The response when the peers changed: known IDs are listed as removed only
      when no peer is left to list. */
  method Respond(peers: seq<Node>, known: set<int>) returns (res: MapResponse, known': set<int>)
    ensures IsUpdate(res, known, peers)
    ensures known' == Ids(peers)
  {
    var removed: seq<int> := [];
    if |peers| == 0 {
      removed := SortedIds(known);
    }
    res := MapResponse(false, peers, removed);
    known' := IdsOf(peers);
  }

  /** `sent` answers the initial request and then the events, one response each. */
  ghost predicate Answers(initial: seq<Node>, events: seq<Event>, sent: seq<MapResponse>)
    decreases |sent|
  {
    if sent == [] then true
    else
      var (before, last) := (sent[..|sent| - 1], sent[|sent| - 1]);
      if before == [] then last == MapResponse(false, initial, [])
      else
        && |before| <= |events|
        && Answers(initial, events, before)
        && match events[|before| - 1]
           case PeersChanged(peers) => IsUpdate(last, BelieveAll({}, before), peers)
           case KeepAliveTick => last == KEEP_ALIVE
           case Cancelled => false
  }

  lemma {:induction false} AnswersPrefix(initial: seq<Node>, events: seq<Event>, sent: seq<MapResponse>, k: nat)
    requires Answers(initial, events, sent) && k <= |sent|
    ensures Answers(initial, events, sent[..k])
    decreases |sent|
  {
    if k == |sent| {
      assert sent[..k] == sent;
    } else {
      AnswersPrefix(initial, events, sent[..|sent| - 1], k);
      assert sent[..|sent| - 1][..k] == sent[..k];
    }
  }

  /** After every response of a stream the engine believes exactly the IDs of
      the latest snapshot. */
  lemma {:induction false} StreamedView(initial: seq<Node>, events: seq<Event>, sent: seq<MapResponse>, k: nat)
    requires Answers(initial, events, sent) && 0 < k <= |sent| <= |events| + 1
    ensures BelieveAll({}, sent[..k]) == Ids(LastSnapshot(initial, events, k - 1))
    decreases k
  {
    AnswersPrefix(initial, events, sent, k);
    var upTo := sent[..k];
    var before := upTo[..k - 1];
    assert before == sent[..k - 1];
    if k == 1 {
      assert Believe({}, MapResponse(false, initial, [])) == Ids(initial);
    } else {
      StreamedView(initial, events, sent, k - 1);
      match events[k - 2]
      case PeersChanged(peers) => UpdateConverges(upTo[k - 1], BelieveAll({}, before), peers);
      case KeepAliveTick => KeepAliveNeutral(BelieveAll({}, before));
    }
  }

  /** Serves one stream. `writes[k]` says whether the k-th response could be
      written; `sent` collects the responses that were. */
  method HandleStreaming(initial: seq<Node>, events: seq<Event>, writes: seq<bool>)
    returns (sent: seq<MapResponse>, known: set<int>)
    requires |writes| == |events| + 1
    ensures |sent| <= |writes| && Answers(initial, events, sent)
    // The stream ends only when it is cancelled or a write fails.
    ensures forall k :: 0 <= k < |sent| ==> writes[k]
    ensures |sent| < |writes| ==> !writes[|sent|] || (sent != [] && events[|sent| - 1] == Cancelled)
    // Unless a write failed the known IDs are the engine's view.
    ensures |sent| == |writes| || writes[|sent|] ==> known == BelieveAll({}, sent)
  {
    sent := [];
    known := IdsOf(initial);
    if !writes[0] {
      return;
    }
    sent := [MapResponse(false, initial, [])];
    assert sent[..1] == sent && sent[..0] == [];
    StreamedView(initial, events, sent, 1);
    var n := 0;
    while n < |events|
      invariant 0 <= n <= |events| && |sent| == n + 1
      invariant Answers(initial, events, sent) && known == BelieveAll({}, sent)
      invariant forall k :: 0 <= k < |sent| ==> writes[k]
    {
      var res;
      match events[n] {
        case Cancelled =>
          return;
        case PeersChanged(peers) =>
          ghost var before := known;
          res, known := Respond(peers, known);
          UpdateConverges(res, before, peers);
        case KeepAliveTick =>
          res := KEEP_ALIVE;
          KeepAliveNeutral(known);
      }
      if !writes[n + 1] {
        return;
      }
      assert (sent + [res])[..|sent|] == sent;
      sent := sent + [res];
      n := n + 1;
    }
  }
}
