/** Comparing the routes of two host descriptions through a canonical order. */
module Routes {
  import opened Wrappers
  import opened Orders

  datatype Addr = NoAddr | V4(value: nat) | V6(value: nat)

  /** Bits is -1 for an invalid prefix. */
  datatype Prefix = Prefix(addr: Addr, bits: int)

  /** A node's description of its host; `rest` stands for the fields the control
      server does not look into, 0 for them all unset. */
  datatype NetInfo = NetInfo(preferredDerp: int, rest: int)

  datatype Hostinfo = Hostinfo(netInfo: Option<NetInfo>, routes: seq<Prefix>, services: seq<int>, rest: int)

  function Compare(a: int, b: int): int {
    if a < b then -1 else if a > b then 1 else 0
  }

  function BitLen(a: Addr): int {
    match a case NoAddr => 0 case V4(_) => 32 case V6(_) => 128
  }

  function AddrValue(a: Addr): int {
    match a case NoAddr => 0 case V4(v) => v case V6(v) => v
  }

  function CompareAddr(a: Addr, b: Addr): int {
    var c := Compare(BitLen(a), BitLen(b));
    if c != 0 then c else Compare(AddrValue(a), AddrValue(b))
  }

  /** Address family first, then prefix length, then address. */
  function ComparePrefix(p: Prefix, q: Prefix): int {
    var c := Compare(BitLen(p.addr), BitLen(q.addr));
    if c != 0 then c
    else
      var d := Compare(p.bits, q.bits);
      if d != 0 then d else CompareAddr(p.addr, q.addr)
  }

  /** The order routes are sorted in: largest first. */
  predicate RouteLe(p: Prefix, q: Prefix) {
    ComparePrefix(p, q) >= 0
  }

  /** The comparison is a total order that agrees with equality. */
  lemma ComparePrefixTotal()
    ensures TotalOrder(RouteLe)
    ensures forall p, q :: ComparePrefix(p, q) == 0 <==> p == q
    ensures forall p, q :: ComparePrefix(p, q) == -ComparePrefix(q, p)
  {
    forall p, q ensures ComparePrefix(p, q) == -ComparePrefix(q, p) && (ComparePrefix(p, q) == 0 <==> p == q) {
      if ComparePrefix(p, q) == 0 {
        assert p.addr == q.addr by {
          match p.addr
          case NoAddr =>
          case V4(_) =>
          case V6(_) =>
        }
      }
    }
    forall p, q, r | RouteLe(p, q) && RouteLe(q, r) ensures RouteLe(p, r) {
    }
    forall p, q ensures RouteLe(p, q) || RouteLe(q, p) {
      assert ComparePrefix(p, q) == -ComparePrefix(q, p);
    }
    forall p, q | RouteLe(p, q) && RouteLe(q, p) ensures p == q {
      assert ComparePrefix(p, q) == -ComparePrefix(q, p);
    }
  }

  /** 0 for an invalid address, then IPv4, then IPv6. */
  function Family(a: Addr): nat {
    match a case NoAddr => 0 case V4(_) => 1 case V6(_) => 2
  }

  function Number(a: Addr): nat {
    match a case NoAddr => 0 case V4(v) => v case V6(v) => v
  }

  /** One prefix is less than another by family, then by length, then by address. */
  lemma ComparePrefixMeans(p: Prefix, q: Prefix)
    ensures ComparePrefix(p, q) < 0 <==>
            || Family(p.addr) < Family(q.addr)
            || (Family(p.addr) == Family(q.addr) && p.bits < q.bits)
            || (Family(p.addr) == Family(q.addr) && p.bits == q.bits && Number(p.addr) < Number(q.addr))
    ensures ComparePrefix(p, q) == 0 <==>
            Family(p.addr) == Family(q.addr) && p.bits == q.bits && Number(p.addr) == Number(q.addr)
  {
  }

  /** In canonical order IPv6 routes come before IPv4 routes, longer prefixes before
      shorter ones, and larger addresses before smaller ones. */
  lemma CanonicalOrder(routes: seq<Prefix>, i: nat, j: nat)
    requires SortedBy(RouteLe, routes) && i < j < |routes|
    ensures var (p, q) := (routes[i], routes[j]);
            && Family(p.addr) >= Family(q.addr)
            && (Family(p.addr) == Family(q.addr) ==> p.bits >= q.bits)
            && (Family(p.addr) == Family(q.addr) && p.bits == q.bits ==> Number(p.addr) >= Number(q.addr))
  {
    assert RouteLe(routes[i], routes[j]);
    ComparePrefixMeans(routes[i], routes[j]);
    ComparePrefixMeans(routes[j], routes[i]);
  }

  /** The library sort, in place. */
  method SortRoutes(a: array<Prefix>)
    modifies a
    ensures a[..] == Sort(RouteLe, old(a[..]))
  {
    var sorted := Sort(RouteLe, a[..]);
    assert |multiset(sorted)| == |multiset(a[..])|;
    forall i | 0 <= i < a.Length {
      a[i] := sorted[i];
    }
  }

  /** Whether anything worth announcing changed, whether the routes did, and the
      new description as the comparison leaves it: its routes sorted unless the
      two descriptions were equal. */
  function HostInfoDelta(old_: Hostinfo, new_: Hostinfo): (bool, bool, Hostinfo) {
    if old_ == new_ then (false, false, new_)
    else
      var sorted := new_.(routes := Sort(RouteLe, new_.routes));
      if Sort(RouteLe, old_.routes) != sorted.routes then (true, true, sorted)
      else if |old_.services| != |new_.services| then (true, false, sorted)
      else (false, false, sorted)
  }

  method HostInfoChanged(old_: Hostinfo, new_: Hostinfo) returns (sendUpdate: bool, routesChanged: bool, left: Hostinfo)
    ensures (sendUpdate, routesChanged, left) == HostInfoDelta(old_, new_)
  {
    hide Sort;
    if old_ == new_ {
      return false, false, new_;
    }
    var oldRoutes := new Prefix[|old_.routes|](i requires 0 <= i < |old_.routes| => old_.routes[i]);
    var newRoutes := new Prefix[|new_.routes|](i requires 0 <= i < |new_.routes| => new_.routes[i]);
    assert oldRoutes[..] == old_.routes && newRoutes[..] == new_.routes;
    SortRoutes(oldRoutes);
    SortRoutes(newRoutes);
    left := new_.(routes := newRoutes[..]);
    if oldRoutes[..] != newRoutes[..] {
      return true, true, left;
    }
    if |old_.services| != |new_.services| {
      return true, false, left;
    }
    return false, false, left;
  }

  /** Two descriptions that differ at most in the order of their routes. */
  ghost predicate SameUpToRouteOrder(a: Hostinfo, b: Hostinfo) {
    multiset(a.routes) == multiset(b.routes) && a.(routes := []) == b.(routes := [])
  }

  /** For unequal descriptions a route change is reported exactly if the route
      multisets differ, and the new description keeps everything but the order of
      its routes. */
  lemma RouteChangeIffMultisetsDiffer(old_: Hostinfo, new_: Hostinfo)
    ensures var (sendUpdate, routesChanged, left) := HostInfoDelta(old_, new_);
            && (routesChanged <==> old_ != new_ && multiset(old_.routes) != multiset(new_.routes))
            && (sendUpdate <==> routesChanged || |old_.services| != |new_.services|)
            && SameUpToRouteOrder(left, new_)
  {
    ComparePrefixTotal();
    SortSorted(RouteLe, old_.routes);
    SortSorted(RouteLe, new_.routes);
    if multiset(old_.routes) == multiset(new_.routes) {
      SortedPermutationsEqual(RouteLe, Sort(RouteLe, old_.routes), Sort(RouteLe, new_.routes));
    }
  }

  lemma SortPair(p: Prefix, q: Prefix)
    requires RouteLe(q, p)
    ensures Sort(RouteLe, [p, q]) == [q, p]
  {
    hide RouteLe;
    assert [p, q][..1] == [p] && [p][..0] == [];
    assert Sort(RouteLe, [p]) == [p];
  }

  lemma SortedIsFixed(routes: seq<Prefix>)
    ensures SortedBy(RouteLe, Sort(RouteLe, routes))
    ensures SortedBy(RouteLe, routes) <==> Sort(RouteLe, routes) == routes
  {
    ComparePrefixTotal();
    SortSorted(RouteLe, routes);
    if SortedBy(RouteLe, routes) {
      SortedPermutationsEqual(RouteLe, routes, Sort(RouteLe, routes));
    }
  }

  /** The comparison leaves the new description as it is exactly if it equals the
      old one or its routes are in canonical order already. */
  lemma DescriptionKeptIff(old_: Hostinfo, new_: Hostinfo)
    ensures HostInfoDelta(old_, new_).2 == new_ <==> old_ == new_ || SortedBy(RouteLe, new_.routes)
  {
    SortedIsFixed(new_.routes);
  }
}
