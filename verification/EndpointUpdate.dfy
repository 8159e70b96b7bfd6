/** How the control server's own node evolves under the engine's requests. Keys
    are numbers; the source compares their distinct string forms. */
module EndpointUpdate {
  import opened Wrappers
  import opened Orders
  import opened Text
  import opened Routes

  const DERP_MAGIC_IP := "127.3.3.40"

  datatype SelfNode = SelfNode(
    id: int, key: int, discoKey: int, endpoints: Option<seq<int>>, hostinfo: Option<Hostinfo>,
    homeDerp: int, legacyDerp: string, online: Option<bool>, lastSeen: Option<int>)

  datatype MapRequest = MapRequest(nodeKey: int, discoKey: int, endpoints: Option<seq<int>>, hostinfo: Option<Hostinfo>)

  datatype PeerChange = PeerChange(
    key: Option<int>, discoKey: Option<int>, online: Option<bool>, endpoints: Option<seq<int>>,
    derpRegion: int, lastSeen: Option<int>, keyExpiry: Option<int>)

  function Decimal(n: int): string {
    if n < 0 then "-" + Itoa(-n) else Itoa(n)
  }

  /** The region as older clients read it: a port on a magic address. */
  function LegacyDerp(region: int): string {
    DERP_MAGIC_IP + ":" + Decimal(region)
  }

  /** What a request changes. A missing host description or network description
      changes no region. */
  function ChangeOf(req: MapRequest, node: SelfNode, now: int): PeerChange {
    PeerChange(
      if node.key != req.nodeKey then Some(req.nodeKey) else None,
      if node.discoKey != req.discoKey then Some(req.discoKey) else None,
      None,
      req.endpoints,
      if req.hostinfo.None? || req.hostinfo.value.netInfo.None? then 0
      else
        var preferred := req.hostinfo.value.netInfo.value.preferredDerp;
        if node.hostinfo.None? || node.hostinfo.value.netInfo.None? then preferred
        else if node.hostinfo.value.netInfo.value.preferredDerp != preferred then preferred
        else 0,
      Some(now),
      None)
  }

  predicate IsEmpty(c: PeerChange) {
    c.key.None? && c.discoKey.None? && c.online.None? && c.endpoints.None? && c.derpRegion == 0 && c.lastSeen.None? && c.keyExpiry.None?
  }

  /** A change is empty exactly if it changes nothing at all. */
  lemma OnlyNoChangeIsEmpty(c: PeerChange)
    ensures IsEmpty(c) <==> c == PeerChange(None, None, None, None, 0, None, None)
  {
  }

  function WithRegion(h: Option<Hostinfo>, region: int): Hostinfo {
    if h.None? then Hostinfo(Some(NetInfo(region, 0)), [], [], 0)
    else if h.value.netInfo.None? then h.value.(netInfo := Some(NetInfo(region, 0)))
    else h.value.(netInfo := Some(h.value.netInfo.value.(preferredDerp := region)))
  }

  function Changed(node: SelfNode, c: PeerChange): SelfNode {
    var n := node.(
      key := if c.key.Some? then c.key.value else node.key,
      discoKey := if c.discoKey.Some? then c.discoKey.value else node.discoKey,
      online := if c.online.Some? then c.online else node.online,
      endpoints := if c.endpoints.Some? then c.endpoints else node.endpoints,
      lastSeen := c.lastSeen);
    if c.derpRegion == 0 then n
    else n.(hostinfo := Some(WithRegion(node.hostinfo, c.derpRegion)), homeDerp := c.derpRegion, legacyDerp := LegacyDerp(c.derpRegion))
  }

  /** The stored node after an endpoint update; None when the handler panics
      comparing a present host description with an absent one, which leaves the
      stored node alone. */
  function Updated(node: SelfNode, req: MapRequest, now: int): Option<SelfNode> {
    var n := Changed(node, ChangeOf(req, node, now).(online := Some(true)));
    if n.hostinfo.None? && req.hostinfo.None? then Some(n)
    else if n.hostinfo.None? || req.hostinfo.None? then None
    else Some(n.(hostinfo := Some(HostInfoDelta(n.hostinfo.value, req.hostinfo.value).2)))
  }

  /** The node a registration stores. */
  function Registered(id: int, key: int, hostinfo: Hostinfo, now: int): SelfNode {
    SelfNode(id, key, 0, None, Some(hostinfo), 0, "", Some(true), Some(now))
  }

  /** The part of the control server that owns its node. */
  class Control {
    var node: Option<SelfNode>
    var nodeSignal: bool

    constructor ()
      ensures node == None && !nodeSignal
    {
      node, nodeSignal := None, false;
    }

    /** One slot, dropped when full. */
    method NotifyUpdate()
      modifies this`nodeSignal
      ensures nodeSignal
    {
      if !nodeSignal {
        nodeSignal := true;
      }
    }

    /** A registration that already expired only marks the node offline. */
    method Register(id: int, key: int, hostinfo: Hostinfo, expired: bool, now: int)
      modifies this
      ensures nodeSignal
      ensures node == if !expired then Some(Registered(id, key, hostinfo, now))
                      else if old(node).Some? then Some(old(node).value.(online := Some(false)))
                      else None
      // A new node has the request's key and description, no region and no endpoints, and is online.
      ensures !expired ==> node == Some(SelfNode(id, key, 0, None, Some(hostinfo), 0, "", Some(true), Some(now)))
    {
      if expired {
        if node.Some? {
          node := Some(node.value.(online := Some(false)));
        }
        NotifyUpdate();
        return;
      }
      node := Some(Registered(id, key, hostinfo, now));
      NotifyUpdate();
    }

    /** Every update that is stored raises the node signal; one that panics
        changes nothing. */
    method HandleEndpointUpdate(req: MapRequest, now: int) returns (stored: bool)
      requires node.Some?
      modifies this
      ensures var next := Updated(old(node).value, req, now);
              && stored == next.Some?
              && (stored ==> node == next && nodeSignal)
              && (!stored ==> node == old(node) && nodeSignal == old(nodeSignal))
    {
      var n := node.value;
      var change := PeerChangeFor(req, n, now);
      change := change.(online := Some(true));
      n := ApplyPeerChange(n, change);
      var sendUpdate := false;
      if n.hostinfo.Some? && req.hostinfo.Some? {
        var routesChanged, left;
        sendUpdate, routesChanged, left := HostInfoChanged(n.hostinfo.value, req.hostinfo.value);
        n := n.(hostinfo := Some(left));
      } else if n.hostinfo.Some? || req.hostinfo.Some? {
        return false;
      }
      node := Some(n);
      stored := true;
      if IsEmpty(change) && !sendUpdate {
        return;
      }
      NotifyUpdate();
    }
  }

  method PeerChangeFor(req: MapRequest, node: SelfNode, now: int) returns (ret: PeerChange)
    ensures ret == ChangeOf(req, node, now)
  {
    ret := PeerChange(None, None, None, None, 0, None, None);
    if node.key != req.nodeKey {
      ret := ret.(key := Some(req.nodeKey));
    }
    if node.discoKey != req.discoKey {
      ret := ret.(discoKey := Some(req.discoKey));
    }
    if node.hostinfo.Some? && node.hostinfo.value.netInfo.Some? && req.hostinfo.Some? && req.hostinfo.value.netInfo.Some?
       && node.hostinfo.value.netInfo.value.preferredDerp != req.hostinfo.value.netInfo.value.preferredDerp {
      ret := ret.(derpRegion := req.hostinfo.value.netInfo.value.preferredDerp);
    }
    if req.hostinfo.Some? && req.hostinfo.value.netInfo.Some? {
      var preferred := req.hostinfo.value.netInfo.value.preferredDerp;
      if node.hostinfo.None? {
        ret := ret.(derpRegion := preferred);
      } else if node.hostinfo.value.netInfo.None? {
        ret := ret.(derpRegion := preferred);
      } else {
        if node.hostinfo.value.netInfo.value.preferredDerp != preferred {
          ret := ret.(derpRegion := preferred);
        }
      }
    }
    ret := ret.(endpoints := req.endpoints);
    ret := ret.(lastSeen := Some(now));
  }

  method ApplyPeerChange(node: SelfNode, change: PeerChange) returns (n: SelfNode)
    ensures n == Changed(node, change)
  {
    n := node;
    if change.key.Some? {
      n := n.(key := change.key.value);
    }
    if change.discoKey.Some? {
      n := n.(discoKey := change.discoKey.value);
    }
    if change.online.Some? {
      n := n.(online := change.online);
    }
    if change.endpoints.Some? {
      n := n.(endpoints := change.endpoints);
    }
    if change.derpRegion != 0 {
      if n.hostinfo.None? {
        n := n.(hostinfo := Some(Hostinfo(Some(NetInfo(change.derpRegion, 0)), [], [], 0)));
      } else if n.hostinfo.value.netInfo.None? {
        n := n.(hostinfo := Some(n.hostinfo.value.(netInfo := Some(NetInfo(change.derpRegion, 0)))));
      } else {
        var hf := n.hostinfo.value;
        hf := hf.(netInfo := Some(hf.netInfo.value.(preferredDerp := change.derpRegion)));
        n := n.(hostinfo := Some(hf));
      }
      n := n.(homeDerp := change.derpRegion);
      n := n.(legacyDerp := LegacyDerp(change.derpRegion));
    }
    n := n.(lastSeen := change.lastSeen);
  }

  datatype Timed = Timed(req: MapRequest, at: int)

  /** The node after a sequence of requests; a request whose handler panics
      leaves it as it was. */
  function RunUpdates(node: SelfNode, reqs: seq<Timed>): SelfNode {
    if reqs == [] then node
    else
      var before := RunUpdates(node, reqs[..|reqs| - 1]);
      var last := reqs[|reqs| - 1];
      var next := Updated(before, last.req, last.at);
      if next.Some? then next.value else before
  }

  /** The requests that describe the host. Only these are stored. */
  function Described(reqs: seq<Timed>): (r: seq<Timed>)
    ensures forall i :: 0 <= i < |r| ==> r[i].req.hostinfo.Some?
  {
    if reqs == [] then []
    else
      var before := Described(reqs[..|reqs| - 1]);
      if reqs[|reqs| - 1].req.hostinfo.Some? then before + [reqs[|reqs| - 1]] else before
  }

  function LastEndpoints(reqs: seq<Timed>): Option<seq<int>> {
    if reqs == [] then None
    else if reqs[|reqs| - 1].req.endpoints.Some? then reqs[|reqs| - 1].req.endpoints
    else LastEndpoints(reqs[..|reqs| - 1])
  }

  /** The preferred region; 0 when no network description gives one. */
  function Preferred(h: Hostinfo): int {
    if h.netInfo.Some? then h.netInfo.value.preferredDerp else 0
  }

  function Preferences(reqs: seq<Timed>): (r: seq<int>)
    requires forall i :: 0 <= i < |reqs| ==> reqs[i].req.hostinfo.Some?
    ensures |r| == |reqs| && forall i :: 0 <= i < |r| ==> r[i] == Preferred(reqs[i].req.hostinfo.value)
  {
    seq(|reqs|, i requires 0 <= i < |reqs| => Preferred(reqs[i].req.hostinfo.value))
  }

  /** The home region once `prefs` were announced after `previous`: a preference
      counts only when it is non-zero and differs from the one before. */
  function HomeAfter(home: int, previous: int, prefs: seq<int>): int {
    if prefs == [] then home
    else
      var before := HomeAfter(home, previous, prefs[..|prefs| - 1]);
      var last := prefs[|prefs| - 1];
      var prior := if |prefs| == 1 then previous else prefs[|prefs| - 2];
      if last != 0 && last != prior then last else before
  }

  /** The stored description once the request's region, if it is a new one, is
      written into it: what the request's own description is compared with. */
  function Adjusted(stored: Hostinfo, next: Hostinfo): Hostinfo {
    if Preferred(next) != 0 && Preferred(next) != Preferred(stored) then WithRegion(Some(stored), Preferred(next)) else stored
  }

  function Descriptions(reqs: seq<Timed>): (r: seq<Hostinfo>)
    requires forall i :: 0 <= i < |reqs| ==> reqs[i].req.hostinfo.Some?
    ensures |r| == |reqs| && forall i :: 0 <= i < |r| ==> r[i] == reqs[i].req.hostinfo.value
  {
    seq(|reqs|, i requires 0 <= i < |reqs| => reqs[i].req.hostinfo.value)
  }

  /** From the first on, each description repeats the one before but for its region. */
  ghost predicate Repeating(first: Hostinfo, given: seq<Hostinfo>) {
    forall i :: 0 <= i < |given| ==> RepeatsAt(first, given, i)
  }

  ghost predicate RepeatsAt(first: Hostinfo, given: seq<Hostinfo>, i: nat)
    requires i < |given|
  {
    Adjusted(if i == 0 then first else given[i - 1], given[i]) == given[i]
  }

  function Canonical(h: Hostinfo): Hostinfo {
    h.(routes := Sort(RouteLe, h.routes))
  }

  /** The description stored after `given`: the last one with its routes in
      canonical order, or as it came if nothing but the region ever changed. */
  ghost function DescriptionAfter(first: Hostinfo, given: seq<Hostinfo>): Hostinfo {
    if given == [] then first
    else if Repeating(first, given) then given[|given| - 1]
    else Canonical(given[|given| - 1])
  }

  ghost predicate Converged(first: SelfNode, node: SelfNode, accepted: seq<Timed>)
    requires first.hostinfo.Some? && forall i :: 0 <= i < |accepted| ==> accepted[i].req.hostinfo.Some?
  {
    && node.id == first.id
    && node.hostinfo == Some(DescriptionAfter(first.hostinfo.value, Descriptions(accepted)))
    && node.homeDerp == HomeAfter(0, Preferred(first.hostinfo.value), Preferences(accepted))
    && node.legacyDerp == (if node.homeDerp == 0 then "" else LegacyDerp(node.homeDerp))
    && node.endpoints == LastEndpoints(accepted)
    && if accepted == [] then node == first
       else
         var last := accepted[|accepted| - 1];
         && node.key == last.req.nodeKey && node.discoKey == last.req.discoKey
         && node.online == Some(true) && node.lastSeen == Some(last.at)
  }

  /** What one stored update leaves behind. */
  lemma StoredFields(node: SelfNode, req: MapRequest, now: int)
    requires node.hostinfo.Some? && req.hostinfo.Some?
    ensures Updated(node, req, now).Some?
    ensures var n := Updated(node, req, now).value;
            var (preferred, prior) := (Preferred(req.hostinfo.value), Preferred(node.hostinfo.value));
            var moved := preferred != 0 && preferred != prior;
            && n.id == node.id && n.key == req.nodeKey && n.discoKey == req.discoKey
            && n.endpoints == (if req.endpoints.Some? then req.endpoints else node.endpoints)
            && n.hostinfo == Some(if Adjusted(node.hostinfo.value, req.hostinfo.value) == req.hostinfo.value
                                  then req.hostinfo.value else Canonical(req.hostinfo.value))
            && n.online == Some(true) && n.lastSeen == Some(now)
            && n.homeDerp == (if moved then preferred else node.homeDerp)
            && n.legacyDerp == (if moved then LegacyDerp(preferred) else node.legacyDerp)
  {
    hide LegacyDerp, Sort;
  }

  /** One update stores the request's description as it came exactly if it is the
      stored one, but for its region, or its routes are in canonical order. */
  lemma DescriptionStoredIff(node: SelfNode, req: MapRequest, now: int)
    requires node.hostinfo.Some? && req.hostinfo.Some?
    ensures Updated(node, req, now).Some?
    ensures Updated(node, req, now).value.hostinfo == req.hostinfo <==>
            || Adjusted(node.hostinfo.value, req.hostinfo.value) == req.hostinfo.value
            || SortedBy(RouteLe, req.hostinfo.value.routes)
  {
    StoredFields(node, req, now);
    SortedIsFixed(req.hostinfo.value.routes);
    hide Updated, Adjusted, Sort;
  }

  /** The handler panics, and stores nothing, exactly when of the request and the
      node one has a description and the other has none and gets none. */
  lemma PanicsIff(node: SelfNode, req: MapRequest, now: int)
    ensures Updated(node, req, now).None? <==>
            || (node.hostinfo.Some? && req.hostinfo.None?)
            || (node.hostinfo.None? && req.hostinfo.Some? && Preferred(req.hostinfo.value) == 0)
  {
    hide LegacyDerp, Sort;
  }

  lemma PreferencesMore(accepted: seq<Timed>, t: Timed)
    requires t.req.hostinfo.Some? && forall i :: 0 <= i < |accepted| ==> accepted[i].req.hostinfo.Some?
    ensures Preferences(accepted + [t]) == Preferences(accepted) + [Preferred(t.req.hostinfo.value)]
  {
    hide Preferences, Preferred;
    var more := accepted + [t];
    assert forall i :: 0 <= i < |accepted| ==> more[i] == accepted[i];
  }

  lemma HomeMore(home: int, previous: int, prefs: seq<int>, p: int)
    ensures HomeAfter(home, previous, prefs + [p]) ==
            if p != 0 && p != (if prefs == [] then previous else prefs[|prefs| - 1]) then p
            else HomeAfter(home, previous, prefs)
  {
    assert (prefs + [p])[..|prefs|] == prefs;
  }

  lemma DescriptionsMore(accepted: seq<Timed>, t: Timed)
    requires t.req.hostinfo.Some? && forall i :: 0 <= i < |accepted| ==> accepted[i].req.hostinfo.Some?
    ensures Descriptions(accepted + [t]) == Descriptions(accepted) + [t.req.hostinfo.value]
  {
    hide Descriptions;
    var more := accepted + [t];
    assert forall i :: 0 <= i < |accepted| ==> more[i] == accepted[i];
  }

  lemma RepeatingMore(first: Hostinfo, given: seq<Hostinfo>, next: Hostinfo)
    ensures Repeating(first, given + [next]) <==>
            Repeating(first, given) && Adjusted(if given == [] then first else given[|given| - 1], next) == next
  {
    hide Adjusted;
    var more := given + [next];
    forall i | 0 <= i < |given| ensures RepeatsAt(first, given, i) <==> RepeatsAt(first, more, i) {
      assert more[i] == given[i] && (i > 0 ==> more[i - 1] == given[i - 1]);
    }
    assert RepeatsAt(first, more, |given|) <==> Adjusted(if given == [] then first else given[|given| - 1], next) == next;
    hide RepeatsAt;
    if Repeating(first, more) {
      forall i | 0 <= i < |given| ensures RepeatsAt(first, given, i) {
        assert RepeatsAt(first, more, i);
      }
      assert RepeatsAt(first, more, |given|);
    }
  }

  lemma AdjustedRoutes(stored: Hostinfo, next: Hostinfo)
    ensures Adjusted(stored, next).routes == stored.routes
  {
  }

  /** Once a description was put into canonical order, only canonical ones are
      stored. */
  lemma DescriptionMore(first: Hostinfo, given: seq<Hostinfo>, next: Hostinfo)
    ensures var stored := DescriptionAfter(first, given);
            DescriptionAfter(first, given + [next]) == if Adjusted(stored, next) == next then next else Canonical(next)
  {
    RepeatingMore(first, given, next);
    AdjustedRoutes(DescriptionAfter(first, given), next);
    if given != [] {
      SortedIsFixed(given[|given| - 1].routes);
    }
    SortedIsFixed(next.routes);
    hide Adjusted, Repeating, Sort;
  }

  lemma DescriptionRegion(first: Hostinfo, given: seq<Hostinfo>)
    ensures Preferred(DescriptionAfter(first, given)) == Preferred(if given == [] then first else given[|given| - 1])
  {
    hide Repeating, Sort;
  }

  lemma EndpointsMore(accepted: seq<Timed>, t: Timed)
    ensures LastEndpoints(accepted + [t]) == if t.req.endpoints.Some? then t.req.endpoints else LastEndpoints(accepted)
  {
    assert (accepted + [t])[..|accepted|] == accepted;
  }

  /** One stored update. */
  lemma ConvergedStep(first: SelfNode, node: SelfNode, accepted: seq<Timed>, t: Timed)
    requires first.hostinfo.Some? && forall i :: 0 <= i < |accepted| ==> accepted[i].req.hostinfo.Some?
    requires Converged(first, node, accepted) && t.req.hostinfo.Some?
    ensures Updated(node, t.req, t.at).Some?
    ensures Converged(first, Updated(node, t.req, t.at).value, accepted + [t])
  {
    var (before, given, next) := (first.hostinfo.value, Descriptions(accepted), t.req.hostinfo.value);
    StoredFields(node, t.req, t.at);
    PreferencesMore(accepted, t);
    HomeMore(0, Preferred(before), Preferences(accepted), Preferred(next));
    EndpointsMore(accepted, t);
    DescriptionsMore(accepted, t);
    DescriptionMore(before, given, next);
    DescriptionRegion(before, given);
    hide LegacyDerp, Updated, Preferences, HomeAfter, LastEndpoints, Preferred, Descriptions, DescriptionAfter, Adjusted, Canonical;
  }

  /** After any sequence of requests since a registration the stored node carries
      the last accepted request's keys, its host description as DescriptionAfter
      has it, the last endpoints any accepted request gave, and a legacy string
      that mirrors its home region. Requests without a host description change
      nothing. */
  lemma {:induction false} UpdatesConverge(first: SelfNode, reqs: seq<Timed>)
    requires first.hostinfo.Some? && first.homeDerp == 0 && first.legacyDerp == "" && first.endpoints.None?
    ensures Converged(first, RunUpdates(first, reqs), Described(reqs))
  {
    if reqs != [] {
      var before := reqs[..|reqs| - 1];
      var t := reqs[|reqs| - 1];
      UpdatesConverge(first, before);
      hide Converged;
      var node := RunUpdates(first, before);
      if t.req.hostinfo.Some? {
        ConvergedStep(first, node, Described(before), t);
      } else {
        NothingStored(first, node, Described(before), t);
      }
    }
  }

  lemma NothingStored(first: SelfNode, node: SelfNode, accepted: seq<Timed>, t: Timed)
    requires first.hostinfo.Some? && forall i :: 0 <= i < |accepted| ==> accepted[i].req.hostinfo.Some?
    requires Converged(first, node, accepted) && t.req.hostinfo.None?
    ensures Updated(node, t.req, t.at).None?
  {
  }

  function LastNonZero(prefs: seq<int>): int {
    if prefs == [] then 0
    else if prefs[|prefs| - 1] != 0 then prefs[|prefs| - 1]
    else LastNonZero(prefs[..|prefs| - 1])
  }

  /** The preferences start with the registered one and give no other non-zero
      one: only that region and zeros, and not again after a zero. */
  ghost predicate OnlyRegistered(registered: int, prefs: seq<int>) {
    registered != 0 && exists k :: 0 < k <= |prefs| && SplitsAt(registered, prefs, k)
  }

  ghost predicate SplitsAt(registered: int, prefs: seq<int>, k: nat) {
    (forall i :: 0 <= i < k && i < |prefs| ==> prefs[i] == registered) && (forall i :: k <= i < |prefs| ==> prefs[i] == 0)
  }

  lemma NewPreferenceSplitsNot(registered: int, prefs: seq<int>, j: nat)
    requires prefs != [] && prefs[|prefs| - 1] != 0
    requires prefs[|prefs| - 1] != if |prefs| == 1 then registered else prefs[|prefs| - 2]
    requires j <= |prefs|
    ensures !SplitsAt(registered, prefs, j)
  {
  }

  /** Where the home region is not yet set, all preferences so far were the
      registered one and then zeros. */
  lemma {:induction false} HomeUnset(registered: int, prefs: seq<int>)
    ensures HomeAfter(0, registered, prefs) == 0 <==>
            exists k :: 0 <= k <= |prefs| && SplitsAt(registered, prefs, k)
    ensures HomeAfter(0, registered, prefs) != 0 ==> HomeAfter(0, registered, prefs) == LastNonZero(prefs)
  {
    if prefs == [] {
      assert SplitsAt(registered, prefs, 0);
    } else {
      var before := prefs[..|prefs| - 1];
      var last := prefs[|prefs| - 1];
      HomeUnset(registered, before);
      var home := HomeAfter(0, registered, before);
      if home == 0 {
        var k :| 0 <= k <= |before| && SplitsAt(registered, before, k);
        if HomeAfter(0, registered, prefs) == 0 {
          if k == |before| && last == registered {
            assert SplitsAt(registered, prefs, k + 1);
          } else {
            assert SplitsAt(registered, prefs, k);
          }
        } else {
          forall j | 0 <= j <= |prefs| ensures !SplitsAt(registered, prefs, j) {
            NewPreferenceSplitsNot(registered, prefs, j);
          }
        }
      } else {
        if j :| 0 <= j <= |prefs| && SplitsAt(registered, prefs, j) {
          assert SplitsAt(registered, before, if j <= |before| then j else |before|);
        }
        RepeatedPreference(registered, prefs);
      }
    }
  }

  /** A preference that repeats its predecessor is the last non-zero one already. */
  lemma RepeatedPreference(registered: int, prefs: seq<int>)
    requires prefs != [] && HomeAfter(0, registered, prefs[..|prefs| - 1]) != 0
    requires HomeAfter(0, registered, prefs[..|prefs| - 1]) == LastNonZero(prefs[..|prefs| - 1])
    ensures HomeAfter(0, registered, prefs) == LastNonZero(prefs)
  {
    var before := prefs[..|prefs| - 1];
    assert before != [];
    assert prefs[|prefs| - 2] == before[|before| - 1];
  }

  /** The home region is the last non-zero preference, except exactly when the
      engine only ever repeated the region it registered with before giving zeros:
      then it stays unset. In particular it always is after a registration that
      gave no region. */
  lemma HomeIsLastPreference(registered: int, prefs: seq<int>)
    ensures HomeAfter(0, registered, prefs) == LastNonZero(prefs) <==> !OnlyRegistered(registered, prefs)
    ensures OnlyRegistered(registered, prefs) ==> HomeAfter(0, registered, prefs) == 0
    ensures registered == 0 ==> HomeAfter(0, registered, prefs) == LastNonZero(prefs)
  {
    HomeUnset(registered, prefs);
    if HomeAfter(0, registered, prefs) == 0 {
      var k :| 0 <= k <= |prefs| && SplitsAt(registered, prefs, k);
      LastOfSplit(registered, prefs, k);
      if OnlyRegistered(registered, prefs) {
        var j :| 0 < j <= |prefs| && SplitsAt(registered, prefs, j);
        LastOfSplit(registered, prefs, j);
      }
    }
  }

  lemma {:induction false} LastOfSplit(registered: int, prefs: seq<int>, k: nat)
    requires k <= |prefs| && SplitsAt(registered, prefs, k)
    ensures LastNonZero(prefs) == if k > 0 then registered else 0
  {
    if |prefs| > k {
      LastOfSplit(registered, prefs[..|prefs| - 1], k);
    } else if k > 0 && registered == 0 {
      assert SplitsAt(registered, prefs, 0);
      LastOfSplit(registered, prefs, 0);
    }
  }

  /** From a registration on: everything converges to the last accepted request,
      and the home region is the last non-zero preference unless the engine only
      repeated the region it registered with. */
  lemma RegistrationConverges(id: int, key: int, hostinfo: Hostinfo, now: int, reqs: seq<Timed>)
    ensures var first := Registered(id, key, hostinfo, now);
            var prefs := Preferences(Described(reqs));
            && Converged(first, RunUpdates(first, reqs), Described(reqs))
            && (RunUpdates(first, reqs).homeDerp == LastNonZero(prefs) <==> !OnlyRegistered(Preferred(hostinfo), prefs))
  {
    UpdatesConverge(Registered(id, key, hostinfo, now), reqs);
    HomeIsLastPreference(Preferred(hostinfo), Preferences(Described(reqs)));
  }

  /** After any sequence of requests the stored description is the last accepted
      one exactly if that one's routes are in canonical order or, since the
      registration, nothing but the region ever changed. Otherwise only the order
      of its routes differs. */
  lemma DescriptionConvergesIff(first: SelfNode, reqs: seq<Timed>)
    requires first.hostinfo.Some? && first.homeDerp == 0 && first.legacyDerp == "" && first.endpoints.None?
    requires Described(reqs) != []
    ensures var given := Descriptions(Described(reqs));
            var last := given[|given| - 1];
            var stored := RunUpdates(first, reqs).hostinfo;
            && stored.Some? && SameUpToRouteOrder(stored.value, last)
            && (stored.value == last <==> SortedBy(RouteLe, last.routes) || Repeating(first.hostinfo.value, given))
  {
    UpdatesConverge(first, reqs);
    var given := Descriptions(Described(reqs));
    SortedIsFixed(given[|given| - 1].routes);
    hide Repeating, Sort, RunUpdates, Described, Descriptions;
  }

  // ----- what the legacy string says -----

  /** The number behind the colon of a legacy string: digits, after a minus sign if
      it is negative. */
  ghost predicate Spells(text: string, n: int) {
    if n >= 0 then text != "" && AllDigits(text) && Value(text) == n
    else |text| > 1 && text[0] == '-' && AllDigits(text[1..]) && Value(text[1..]) == -n
  }

  /** The legacy string is the magic address, a colon and the region in decimal. */
  lemma LegacyDerpReads(region: int)
    ensures var parts := Split(LegacyDerp(region), ':');
            |parts| == 2 && parts[0] == "127.3.3.40" && Spells(parts[1], region)
  {
    var digits := Itoa(if region < 0 then -region else region);
    ValueOfItoa(if region < 0 then -region else region);
    assert AllDigits(digits);
    var text := Decimal(region);
    assert region < 0 ==> text[1..] == digits;
    hide Itoa, Value, Split;
    SplitHead("127.3.3.40", text, ':');
    SplitWhole(text, ':');
    assert LegacyDerp(region) == "127.3.3.40" + [':'] + text;
  }

  /** Different regions have different strings. */
  lemma LegacyDerpTellsRegions(a: int, b: int)
    ensures LegacyDerp(a) == LegacyDerp(b) <==> a == b
  {
    LegacyDerpReads(a);
    LegacyDerpReads(b);
    hide LegacyDerp, Split;
  }

  /** After any requests the legacy string is empty where no home region is set and
      otherwise names the home region, and no other, on the magic address. */
  lemma LegacyNamesHome(first: SelfNode, reqs: seq<Timed>)
    requires first.hostinfo.Some? && first.homeDerp == 0 && first.legacyDerp == "" && first.endpoints.None?
    ensures var node := RunUpdates(first, reqs);
            if node.homeDerp == 0 then node.legacyDerp == ""
            else
              var parts := Split(node.legacyDerp, ':');
              |parts| == 2 && parts[0] == "127.3.3.40" && forall n :: Spells(parts[1], n) <==> n == node.homeDerp
  {
    UpdatesConverge(first, reqs);
    hide RunUpdates, Described, HomeAfter, DescriptionAfter, LastEndpoints;
    var home := RunUpdates(first, reqs).homeDerp;
    LegacyDerpReads(home);
    hide LegacyDerp, Split;
    assert forall t, m, n :: Spells(t, m) && Spells(t, n) ==> m == n;
  }

  // ----- runs on which the simple statements fail -----

  lemma OneUpdate(first: SelfNode, t: Timed)
    ensures RunUpdates(first, [t]) == var next := Updated(first, t.req, t.at); if next.Some? then next.value else first
  {
    hide Updated;
    assert [t][..0] == [] && RunUpdates(first, []) == first;
  }

  const HOST := Hostinfo(Some(NetInfo(0, 0)), [], [], 0)

  /** Registered without routes, the engine announces two in ascending order; they
      are stored in descending order. */
  lemma AscendingRoutesReordered(id: int, key: int, now: int, p: Prefix, q: Prefix)
    requires ComparePrefix(p, q) < 0
    ensures var req := MapRequest(key, 0, None, Some(HOST.(routes := [p, q])));
            var stored := RunUpdates(Registered(id, key, HOST, now), [Timed(req, now)]);
            stored.hostinfo.Some? && stored.hostinfo.value.routes == [q, p] && stored.hostinfo != req.hostinfo
  {
    var first := Registered(id, key, HOST, now);
    var t := Timed(MapRequest(key, 0, None, Some(HOST.(routes := [p, q]))), now);
    ComparePrefixTotal();
    SortPair(p, q);
    OneUpdate(first, t);
    hide Updated, Sort, RunUpdates, ComparePrefix;
    StoredFields(first, t.req, now);
    assert [p, q][0] == p;
  }

  /** For instance an IPv4 route before an IPv6 one. */
  lemma RoutesReordered(id: int, key: int, now: int)
    ensures var (v4, v6) := (Prefix(V4(1), 8), Prefix(V6(1), 8));
            var req := MapRequest(key, 0, None, Some(HOST.(routes := [v4, v6])));
            RunUpdates(Registered(id, key, HOST, now), [Timed(req, now)]).hostinfo != req.hostinfo
  {
    AscendingRoutesReordered(id, key, now, Prefix(V4(1), 8), Prefix(V6(1), 8));
    hide RunUpdates;
  }

  /** An update without a description panics and leaves the registered node. */
  lemma UpdateWithoutDescriptionPanics(id: int, key: int, hostinfo: Hostinfo, newKey: int, now: int)
    ensures var first := Registered(id, key, hostinfo, now);
            var req := MapRequest(newKey, 0, None, None);
            Updated(first, req, now).None? && RunUpdates(first, [Timed(req, now)]) == first
  {
    var first := Registered(id, key, hostinfo, now);
    var t := Timed(MapRequest(newKey, 0, None, None), now);
    PanicsIff(first, t.req, now);
    OneUpdate(first, t);
  }

  /** Registered with region 5 already, the engine repeats it: the description
      says 5, the home region stays unset. */
  lemma HomeRegionStaysUnset(id: int, key: int, now: int)
    ensures var host := HOST.(netInfo := Some(NetInfo(5, 0)));
            var req := MapRequest(key, 0, None, Some(host));
            var stored := RunUpdates(Registered(id, key, host, now), [Timed(req, now)]);
            stored.hostinfo == Some(host) && stored.homeDerp == 0 && stored.legacyDerp == ""
  {
    var host := HOST.(netInfo := Some(NetInfo(5, 0)));
    var first := Registered(id, key, host, now);
    var t := Timed(MapRequest(key, 0, None, Some(host)), now);
    OneUpdate(first, t);
    StoredFields(first, t.req, now);
  }
}
