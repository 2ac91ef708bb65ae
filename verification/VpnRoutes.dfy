/**
 The system VPN routes of a netmap (native/go_bridge/vpnroute/routes.go): a set filled from the peers,
 written out as a sorted list, and searched by halving.
 */
module VpnRoutes {
  import opened Wrappers

  /** An address prefix; one with bits outside the address width is not valid. */
  datatype Prefix = Prefix(is4: bool, address: nat, bits: int)

  datatype Peer = Peer(id: string, exitNode: bool, primaryRoutes: Option<seq<Prefix>>, allowedIPs: Option<seq<Prefix>>)

  /** An empty exit node id is the zero id. */
  datatype Prefs = Prefs(routeAll: bool, exitNodeId: string)

  /** How a prefix is written and read. */
  datatype Notation = Notation(text: Prefix -> string, parse: string -> Option<Prefix>)

  function Width(p: Prefix): nat {
    if p.is4 then 32 else 128
  }

  predicate Valid(p: Prefix) {
    0 <= p.bits <= Width(p)
  }

  function Pow2(n: nat): (r: nat)
    ensures r > 0
  {
    if n == 0 then 1 else 2 * Pow2(n - 1)
  }

  function HostRange(p: Prefix): nat
    requires Valid(p)
    ensures HostRange(p) > 0
  {
    Pow2(Width(p) - p.bits)
  }

  /** The largest multiple of d that is not above a. */
  function Floor(a: nat, d: nat): (r: nat)
    requires d > 0
    ensures r <= a < r + d
  {
    if a < d then 0 else d + Floor(a - d, d)
  }

  /** The prefix with its host bits cleared. */
  function Masked(p: Prefix): Prefix
    requires Valid(p)
  {
    p.(address := Floor(p.address, HostRange(p)))
  }

  /** Reading back what was written gives the prefix. */
  ghost predicate Readable(n: Notation) {
    forall p: Prefix :: Valid(p) ==> n.parse(n.text(p)) == Some(p)
  }

  predicate Selected(peer: Peer, prefs: Prefs) {
    peer.exitNode || (prefs.exitNodeId != "" && peer.id == prefs.exitNodeId)
  }

  function Listed(routes: Option<seq<Prefix>>): seq<Prefix> {
    if routes.None? then [] else routes.value
  }

  /** The peer contributes the network of p: an accepted primary route, or a default route of a selected
      exit node. */
  predicate Contributes(peer: Peer, prefs: Prefs, p: Prefix) {
    && Valid(p)
    && ((prefs.routeAll && p in Listed(peer.primaryRoutes))
        || (Selected(peer, prefs) && p in Listed(peer.allowedIPs) && p.bits == 0))
  }

  ghost predicate WantedBy(peer: Peer, prefs: Prefs, n: Notation, route: string) {
    exists p :: Contributes(peer, prefs, p) && route == n.text(Masked(p))
  }

  ghost predicate Wanted(peers: seq<Peer>, prefs: Prefs, n: Notation, route: string) {
    exists i :: 0 <= i < |peers| && WantedBy(peers[i], prefs, n, route)
  }

  // ------------------------------------------------------------------ order on strings

  /** Byte by byte; a prefix comes first. */
  predicate Less(a: string, b: string) {
    b != [] && (a == [] || a[0] < b[0] || (a[0] == b[0] && Less(a[1..], b[1..])))
  }

  lemma {:induction false} LessIsTotal(a: string, b: string)
    ensures Less(a, b) || a == b || Less(b, a)
    ensures !(Less(a, b) && Less(b, a)) && !Less(a, a)
  {
    if a != [] && b != [] {
      LessIsTotal(a[1..], b[1..]);
      LessIsTotal(a[1..], a[1..]);
      assert a == [a[0]] + a[1..] && b == [b[0]] + b[1..];
    } else if a != [] {
      LessIsTotal(a[1..], a[1..]);
    }
  }

  lemma {:induction false} LessIsTransitive(a: string, b: string, c: string)
    requires Less(a, b) && Less(b, c)
    ensures Less(a, c)
  {
    if a != [] && a[0] == b[0] && b[0] == c[0] {
      LessIsTransitive(a[1..], b[1..], c[1..]);
    }
  }

  predicate StrictlySorted(s: seq<string>) {
    forall i, j :: 0 <= i < j < |s| ==> Less(s[i], s[j])
  }

  predicate SameMembers(a: seq<string>, b: seq<string>) {
    (forall x :: x in a ==> x in b) && (forall x :: x in b ==> x in a)
  }

  lemma FirstIsLeast(s: seq<string>, x: string)
    requires StrictlySorted(s) && x in s
    ensures x == s[0] || Less(s[0], x)
  {
  }

  lemma RestMembers(s: seq<string>, x: string)
    requires StrictlySorted(s) && s != []
    ensures x in s[1..] <==> x in s && x != s[0]
  {
    LessIsTotal(s[0], s[0]);
    assert s == [s[0]] + s[1..];
  }

  /** A strictly sorted list is decided by its members. */
  lemma {:induction false} SortedListsAgree(a: seq<string>, b: seq<string>)
    requires StrictlySorted(a) && StrictlySorted(b) && SameMembers(a, b)
    ensures a == b
  {
    assert a != [] ==> a[0] in a;
    assert b != [] ==> b[0] in b;
    if a != [] && b != [] {
      assert a[0] in b && b[0] in a;
      FirstIsLeast(a, b[0]);
      FirstIsLeast(b, a[0]);
      LessIsTotal(a[0], b[0]);
      forall x ensures x in a[1..] <==> x in b[1..] {
        RestMembers(a, x);
        RestMembers(b, x);
      }
      SortedListsAgree(a[1..], b[1..]);
      assert a == [a[0]] + a[1..] && b == [b[0]] + b[1..];
    }
  }

  // ------------------------------------------------------------------ searching

  /** The first index whose route is not less than x. */
  method SearchStrings(routes: seq<string>, x: string) returns (index: nat)
    ensures index <= |routes|
    ensures StrictlySorted(routes) ==>
              && (forall i :: 0 <= i < index ==> Less(routes[i], x))
              && (forall i :: index <= i < |routes| ==> !Less(routes[i], x))
  {
    var low: nat, high: nat := 0, |routes|;
    while low < high
      invariant low <= high <= |routes|
      invariant StrictlySorted(routes) ==> forall i :: 0 <= i < low ==> Less(routes[i], x)
      invariant StrictlySorted(routes) ==> forall i :: high <= i < |routes| ==> !Less(routes[i], x)
    {
      var middle := (low + high) / 2;
      forall i | 0 <= i < |routes| && StrictlySorted(routes)
        ensures i < middle && Less(routes[middle], x) ==> Less(routes[i], x)
        ensures middle < i && !Less(routes[middle], x) ==> !Less(routes[i], x)
      {
        if i < middle && Less(routes[middle], x) {
          LessIsTransitive(routes[i], routes[middle], x);
        }
        if middle < i && Less(routes[i], x) {
          LessIsTransitive(routes[middle], routes[i], x);
        }
      }
      if Less(routes[middle], x) {
        low := middle + 1;
      } else {
        high := middle;
      }
    }
    index := low;
  }

  /** On a list that Build returns, the search is set membership. */
  method Contains(routes: seq<string>, prefix: string) returns (found: bool)
    ensures found ==> prefix in routes
    ensures StrictlySorted(routes) ==> (found <==> prefix in routes)
  {
    var index := SearchStrings(routes, prefix);
    found := index < |routes| && routes[index] == prefix;
    if StrictlySorted(routes) && prefix in routes {
      var i :| 0 <= i < |routes| && routes[i] == prefix;
      LessIsTotal(prefix, prefix);
      assert i >= index;
    }
  }

  // ------------------------------------------------------------------ building

  predicate NonDefault(n: Notation, route: string) {
    n.parse(route).Some? && n.parse(route).value.bits > 0
  }

  /** What Build promises: the wanted routes, sorted, and how many of them are not default routes. */
  ghost predicate Built(peers: seq<Peer>, prefs: Prefs, n: Notation, routes: seq<string>, subnetRoutes: nat) {
    && StrictlySorted(routes)
    && (forall route :: route in routes <==> Wanted(peers, prefs, n, route))
    && subnetRoutes == |set route | route in routes && NonDefault(n, route)|
  }

  /** The routes one peer adds to the set. */
  method AddPeer(peer: Peer, prefs: Prefs, n: Notation, before: set<string>) returns (routeSet: set<string>)
    ensures forall route :: route in routeSet <==> route in before || WantedBy(peer, prefs, n, route)
  {
    routeSet := before;
    ghost var added: set<Prefix> := {};
    if prefs.routeAll && peer.primaryRoutes.Some? {
      for i := 0 to |peer.primaryRoutes.value|
        invariant forall p :: p in added <==> Valid(p) && p in peer.primaryRoutes.value[..i]
        invariant forall route ::
                    route in routeSet <==> route in before || exists p :: p in added && route == n.text(Masked(p))
        invariant forall p :: p in added ==> Valid(p)
      {
        var p := peer.primaryRoutes.value[i];
        if Valid(p) {
          routeSet := routeSet + {n.text(Masked(p))};
          added := added + {p};
        }
      }
      assert peer.primaryRoutes.value[..|peer.primaryRoutes.value|] == peer.primaryRoutes.value;
    }
    ghost var primary := added;
    if Selected(peer, prefs) && peer.allowedIPs.Some? {
      for i := 0 to |peer.allowedIPs.value|
        invariant forall p :: p in added <==>
                    p in primary || (Valid(p) && p.bits == 0 && p in peer.allowedIPs.value[..i])
        invariant forall p :: p in added ==> Valid(p)
        invariant forall route ::
                    route in routeSet <==> route in before || exists p :: p in added && route == n.text(Masked(p))
      {
        var p := peer.allowedIPs.value[i];
        if Valid(p) && p.bits == 0 {
          routeSet := routeSet + {n.text(Masked(p))};
          added := added + {p};
        }
      }
      assert peer.allowedIPs.value[..|peer.allowedIPs.value|] == peer.allowedIPs.value;
    }
    assert forall p :: p in added <==> Contributes(peer, prefs, p);
  }

  lemma OneMorePeer(peers: seq<Peer>, prefs: Prefs, n: Notation, i: nat)
    requires i < |peers|
    ensures forall route :: Wanted(peers[..i + 1], prefs, n, route) <==>
              Wanted(peers[..i], prefs, n, route) || WantedBy(peers[i], prefs, n, route)
  {
    var before, after := peers[..i], peers[..i + 1];
    assert after == before + [peers[i]];
    forall route
      ensures Wanted(after, prefs, n, route) <==> Wanted(before, prefs, n, route) || WantedBy(peers[i], prefs, n, route)
    {
      if WantedBy(peers[i], prefs, n, route) {
        assert WantedBy(after[i], prefs, n, route);
      }
      if Wanted(before, prefs, n, route) {
        var j :| 0 <= j < |before| && WantedBy(before[j], prefs, n, route);
        assert WantedBy(after[j], prefs, n, route);
      }
    }
  }

  /** Peers are visited in the order given, the set in any order. */
  method Build(peers: seq<Peer>, prefs: Prefs, n: Notation) returns (routes: seq<string>, subnetRoutes: nat)
    ensures Built(peers, prefs, n, routes, subnetRoutes)
  {
    var routeSet: set<string> := {};
    for i := 0 to |peers|
      invariant forall route :: route in routeSet <==> Wanted(peers[..i], prefs, n, route)
    {
      OneMorePeer(peers, prefs, n, i);
      routeSet := AddPeer(peers[i], prefs, n, routeSet);
    }
    assert peers[..|peers|] == peers;
    routes, subnetRoutes := ListRoutes(routeSet, n);
    assert forall route :: route in routeSet <==> route in routes;
    assert routeSet == set route | route in routes;
    routes := SortStrings(routes);
    assert (set route | route in routes && NonDefault(n, route))
           == set route | route in routeSet && NonDefault(n, route);
  }

  /** The set is listed in any order, counting as it goes. */
  method ListRoutes(routeSet: set<string>, n: Notation) returns (routes: seq<string>, subnetRoutes: nat)
    ensures forall i, j :: 0 <= i < j < |routes| ==> routes[i] != routes[j]
    ensures forall route :: route in routeSet <==> route in routes
    ensures subnetRoutes == |set route | route in routeSet && NonDefault(n, route)|
  {
    routes, subnetRoutes := [], 0;
    var rest := routeSet;
    ghost var counted: set<string> := {};
    while rest != {}
      invariant rest <= routeSet
      invariant forall route :: route in routeSet <==> route in rest || route in routes
      invariant forall route :: route in routes ==> route !in rest
      invariant forall i, j :: 0 <= i < j < |routes| ==> routes[i] != routes[j]
      invariant counted == (set route | route in routeSet && route !in rest && NonDefault(n, route))
      invariant subnetRoutes == |counted|
      decreases rest
    {
      var route :| route in rest;
      rest := rest - {route};
      routes := routes + [route];
      if n.parse(route).Some? && n.parse(route).value.bits > 0 {
        subnetRoutes := subnetRoutes + 1;
        counted := counted + {route};
      }
    }
    assert counted == set route | route in routeSet && NonDefault(n, route);
  }

  method SortStrings(s: seq<string>) returns (sorted: seq<string>)
    requires forall i, j :: 0 <= i < j < |s| ==> s[i] != s[j]
    ensures StrictlySorted(sorted) && SameMembers(s, sorted)
  {
    sorted := [];
    for i := 0 to |s|
      invariant StrictlySorted(sorted) && SameMembers(s[..i], sorted)
    {
      assert s[..i + 1] == s[..i] + [s[i]];
      var index := SearchStrings(sorted, s[i]);
      assert s[i] !in s[..i];
      forall j | index <= j < |sorted| ensures Less(s[i], sorted[j]) {
        assert sorted[j] in sorted;
        LessIsTotal(s[i], sorted[j]);
      }
      sorted := sorted[..index] + [s[i]] + sorted[index..];
    }
    assert s[..|s|] == s;
  }

  /** Neither the order in which the peers are visited nor that of the set can be seen in the result. */
  lemma BuildIsOrderIndependent(peers: seq<Peer>, others: seq<Peer>, prefs: Prefs, n: Notation,
                                a: seq<string>, countA: nat, b: seq<string>, countB: nat)
    requires forall peer :: peer in peers <==> peer in others
    requires Built(peers, prefs, n, a, countA) && Built(others, prefs, n, b, countB)
    ensures a == b && countA == countB
  {
    forall route ensures Wanted(peers, prefs, n, route) <==> Wanted(others, prefs, n, route) {
      if Wanted(peers, prefs, n, route) {
        var i :| 0 <= i < |peers| && WantedBy(peers[i], prefs, n, route);
        assert peers[i] in others;
      }
      if Wanted(others, prefs, n, route) {
        var i :| 0 <= i < |others| && WantedBy(others[i], prefs, n, route);
        assert others[i] in peers;
      }
    }
    SortedListsAgree(a, b);
  }

  // ------------------------------------------------------------------ networks

  /** The addresses that a route for p attracts. */
  predicate InNetwork(p: Prefix, address: nat)
    requires Valid(p)
  {
    Masked(p).address <= address < Masked(p).address + HostRange(p)
  }

  ghost predicate SameNetwork(p: Prefix, q: Prefix)
    requires Valid(p) && Valid(q)
  {
    p.is4 == q.is4 && forall address :: InNetwork(p, address) <==> InNetwork(q, address)
  }

  lemma {:induction false} Pow2Increases(m: nat, n: nat)
    requires m < n
    ensures Pow2(m) < Pow2(n)
    decreases n
  {
    if m < n - 1 {
      Pow2Increases(m, n - 1);
    }
  }

  lemma SameRange(p: Prefix, q: Prefix)
    requires Valid(p) && Valid(q) && p.is4 == q.is4 && HostRange(p) == HostRange(q)
    ensures p.bits == q.bits
  {
    if p.bits < q.bits {
      Pow2Increases(Width(q) - q.bits, Width(p) - p.bits);
    }
    if q.bits < p.bits {
      Pow2Increases(Width(p) - p.bits, Width(q) - q.bits);
    }
  }

  /** What is left of a number without its last n bits. */
  function Leading(a: nat, n: nat): nat {
    if n == 0 then a else Leading(a / 2, n - 1)
  }

  /** The number with n zero bits behind it. */
  function Shifted(a: nat, n: nat): nat {
    if n == 0 then a else 2 * Shifted(a, n - 1)
  }

  lemma {:induction false} LeadingBlock(a: nat, n: nat)
    ensures Shifted(Leading(a, n), n) <= a < Shifted(Leading(a, n), n) + Pow2(n)
  {
    if n > 0 {
      LeadingBlock(a / 2, n - 1);
      ShiftedTwice(Leading(a / 2, n - 1), n - 1);
    }
  }

  lemma {:induction false} ShiftedTwice(a: nat, n: nat)
    ensures Shifted(a, n + 1) == 2 * Shifted(a, n)
  {
  }

  lemma {:induction false} BlockOf(a: nat, n: nat, b: nat)
    requires Shifted(a, n) <= b < Shifted(a, n) + Pow2(n)
    ensures Leading(b, n) == a
  {
    if n > 0 {
      BlockOf(a, n - 1, b / 2);
    }
  }

  lemma {:induction false} NextBlock(a: nat, n: nat)
    ensures Shifted(a + 1, n) == Shifted(a, n) + Pow2(n)
  {
    if n > 0 {
      NextBlock(a, n - 1);
    }
  }

  lemma {:induction false} ZeroBlock(n: nat)
    ensures Shifted(0, n) == 0
  {
    if n > 0 {
      ZeroBlock(n - 1);
    }
  }

  lemma {:induction false} FloorIsBlock(a: nat, n: nat, b: nat)
    requires Shifted(a, n) <= b < Shifted(a, n) + Pow2(n)
    ensures Floor(b, Pow2(n)) == Shifted(a, n)
  {
    ZeroBlock(n);
    if a > 0 {
      NextBlock(a - 1, n);
      FloorIsBlock(a - 1, n, b - Pow2(n));
    }
  }

  /** Clearing the host bits leaves the bits before them. */
  lemma NetworkIsLeadingBits(p: Prefix, address: nat)
    requires Valid(p)
    ensures var hostBits := Width(p) - p.bits;
            InNetwork(p, address) <==> Leading(address, hostBits) == Leading(p.address, hostBits)
  {
    var hostBits := Width(p) - p.bits;
    LeadingBlock(p.address, hostBits);
    FloorIsBlock(Leading(p.address, hostBits), hostBits, p.address);
    LeadingBlock(address, hostBits);
    if InNetwork(p, address) {
      BlockOf(Leading(p.address, hostBits), hostBits, address);
    }
  }

  /** A route attracts the addresses that agree with its prefix before the host bits, two prefixes become
      one route exactly when they attract the same addresses, and a route counts exactly when its prefix
      was not a default route. */
  lemma RoutesAreNetworks(n: Notation, p: Prefix, q: Prefix)
    requires Readable(n) && Valid(p) && Valid(q)
    ensures forall address: nat :: InNetwork(p, address) <==>
              Leading(address, Width(p) - p.bits) == Leading(p.address, Width(p) - p.bits)
    ensures n.text(Masked(p)) == n.text(Masked(q)) <==> SameNetwork(p, q)
    ensures NonDefault(n, n.text(Masked(p))) <==> p.bits > 0
  {
    forall address: nat
      ensures InNetwork(p, address) <==>
              Leading(address, Width(p) - p.bits) == Leading(p.address, Width(p) - p.bits)
    {
      NetworkIsLeadingBits(p, address);
    }
    assert n.parse(n.text(Masked(p))) == Some(Masked(p));
    assert n.parse(n.text(Masked(q))) == Some(Masked(q));
    if SameNetwork(p, q) {
      SameStartAndRange(p, q);
      SameRange(p, q);
    }
  }

  lemma SameStartAndRange(p: Prefix, q: Prefix)
    requires Valid(p) && Valid(q) && SameNetwork(p, q)
    ensures Masked(p).address == Masked(q).address && HostRange(p) == HostRange(q)
  {
    assert InNetwork(p, Masked(p).address) && InNetwork(q, Masked(q).address);
    assert InNetwork(p, Masked(p).address + HostRange(p) - 1);
    assert InNetwork(q, Masked(q).address + HostRange(q) - 1);
  }
}
