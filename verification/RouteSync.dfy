/** Synchronising one VPC route table with the pod CIDRs of the cluster's nodes:
    conflicting routes are deleted, then missing routes are created against the list that
    was read before the deletions. */
module RouteSync {
  import opened Common
  import opened Cidr

  datatype Route = Route(destination: CidrText, providerId: string)

  datatype Node = Node(
    name: string, podCidrs: seq<CidrText>, podCidr: CidrText, providerId: string,
    excluded: bool, readyUnknown: bool, deleting: bool)

  /** What a node's spec says about its pod block. */
  datatype PodRoute = BadCidr | NoCidr | Net(net: IpNet)

  predicate NeedSyncRoute(node: Node) { !node.excluded && !node.readyUnknown && !node.deleting }

  predicate IsIPv4(net: IpNet) { |net.ip| == 32 }

  /** The CIDRs that are scanned for a node, in order. */
  function ListedCidrs(node: Node): seq<CidrText> { node.podCidrs + [node.podCidr] }

  /** The scan from some point on, having found `current` so far. */
  function ScanCidrs(cidrs: seq<CidrText>, current: PodRoute): PodRoute {
    if cidrs == [] then current
    else if cidrs[0].Blank? then ScanCidrs(cidrs[1..], current)
    else match ParseCidr(cidrs[0])
      case None => BadCidr
      case Some(net) => if IsIPv4(net) then Net(net) else ScanCidrs(cidrs[1..], Net(net))
  }

  function PodRouteOf(node: Node): PodRoute { ScanCidrs(ListedCidrs(node), NoCidr) }

  /** An entry the scan passes over on its way to an IPv4 block. */
  predicate Passed(c: CidrText) { c.Blank? || (ParseCidr(c).Some? && !IsIPv4(ParseCidr(c).value)) }

  /** The scan ends at the first entry that is an IPv4 block or does not parse, with that
      block or with an error. */
  lemma {:induction false} ScanEndsAtFirstIPv4(cidrs: seq<CidrText>, current: PodRoute, i: nat)
    requires i < |cidrs| && !Passed(cidrs[i])
    requires forall j :: 0 <= j < i ==> Passed(cidrs[j])
    ensures ScanCidrs(cidrs, current) == match ParseCidr(cidrs[i]) case None => BadCidr case Some(net) => Net(net)
  {
    if i > 0 {
      var next := if cidrs[0].Blank? then current else Net(ParseCidr(cidrs[0]).value);
      ScanEndsAtFirstIPv4(cidrs[1..], next, i - 1);
    }
  }

  /** A node that lists no IPv4 block is routed by the last block it lists. */
  lemma {:induction false} ScanFallsBackToLast(cidrs: seq<CidrText>, current: PodRoute, i: nat)
    requires i < |cidrs| && !cidrs[i].Blank? && Passed(cidrs[i])
    requires forall j :: 0 <= j < i ==> Passed(cidrs[j])
    requires forall j :: i < j < |cidrs| ==> cidrs[j].Blank?
    ensures ScanCidrs(cidrs, current) == Net(ParseCidr(cidrs[i]).value)
    decreases |cidrs|
  {
    var next := if cidrs[0].Blank? then current else Net(ParseCidr(cidrs[0]).value);
    if i > 0 {
      ScanFallsBackToLast(cidrs[1..], next, i - 1);
    } else {
      ScanOfBlanks(cidrs[1..], next);
    }
  }

  lemma {:induction false} ScanOfBlanks(cidrs: seq<CidrText>, current: PodRoute)
    requires forall j :: 0 <= j < |cidrs| ==> cidrs[j].Blank?
    ensures ScanCidrs(cidrs, current) == current
  {
    if cidrs != [] { ScanOfBlanks(cidrs[1..], current); }
  }

  /** Text of an IPv4 block, well-formed or not. */
  predicate IPv4Text(c: CidrText) { c.Written? && |c.addr| == 32 }

  /** Of the texts in question the one at i comes first. */
  ghost predicate FirstIPv4(cidrs: seq<CidrText>, i: nat) {
    i < |cidrs| && IPv4Text(cidrs[i]) && forall j :: 0 <= j < i ==> !IPv4Text(cidrs[j])
  }

  lemma {:induction false} ScanFindsFirstIPv4(cidrs: seq<CidrText>, current: PodRoute, i: nat)
    requires FirstIPv4(cidrs, i) && ScanCidrs(cidrs, current).Net?
    ensures ParseCidr(cidrs[i]).Some? && ScanCidrs(cidrs, current) == Net(ParseCidr(cidrs[i]).value)
  {
    if i > 0 {
      var next := if cidrs[0].Blank? then current else Net(ParseCidr(cidrs[0]).value);
      ScanFindsFirstIPv4(cidrs[1..], next, i - 1);
    }
  }

  lemma {:induction false} ScanWithoutIPv4(cidrs: seq<CidrText>, current: PodRoute)
    requires forall j :: 0 <= j < |cidrs| ==> !IPv4Text(cidrs[j])
    requires ScanCidrs(cidrs, current).Net?
    ensures var r := ScanCidrs(cidrs, current);
            r == current || (|r.net.ip| == 128 && exists i :: 0 <= i < |cidrs| && ParseCidr(cidrs[i]) == Some(r.net))
  {
    if cidrs != [] {
      var next := if cidrs[0].Blank? then current else Net(ParseCidr(cidrs[0]).value);
      ScanWithoutIPv4(cidrs[1..], next);
      if i :| 0 <= i < |cidrs[1..]| && ParseCidr(cidrs[1..][i]) == Some(ScanCidrs(cidrs, current).net) {
        assert cidrs[i + 1] == cidrs[1..][i];
      }
    }
  }

  /** Which block is a dual-stack node's: the first IPv4 one of the listed plural ones, else the
      singular one if it is IPv4, and an IPv6 one only when none is IPv4. */
  lemma IPv4Wins(node: Node)
    requires PodRouteOf(node).Net?
    ensures forall i: nat :: FirstIPv4(node.podCidrs, i) ==> ParseCidr(node.podCidrs[i]) == Some(PodRouteOf(node).net)
    ensures (forall c :: c in node.podCidrs ==> !IPv4Text(c)) && IPv4Text(node.podCidr) ==>
              ParseCidr(node.podCidr) == Some(PodRouteOf(node).net)
    ensures |PodRouteOf(node).net.ip| == if exists c :: (c in node.podCidrs || c == node.podCidr) && IPv4Text(c) then 32
                                         else 128
  {
    var cidrs := ListedCidrs(node);
    assert cidrs[|node.podCidrs|] == node.podCidr && cidrs[..|node.podCidrs|] == node.podCidrs;
    forall i: nat | FirstIPv4(cidrs, i)
      ensures ParseCidr(cidrs[i]) == Some(PodRouteOf(node).net)
    {
      ScanFindsFirstIPv4(cidrs, NoCidr, i);
    }
    forall i: nat | FirstIPv4(node.podCidrs, i)
      ensures FirstIPv4(cidrs, i)
    {
      assert forall j :: 0 <= j <= i ==> cidrs[j] == node.podCidrs[j];
    }
    if c :| c in cidrs && IPv4Text(c) {
      FirstOneExists(cidrs, c);
    } else {
      ScanWithoutIPv4(cidrs, NoCidr);
    }
    if (forall c :: c in node.podCidrs ==> !IPv4Text(c)) && IPv4Text(node.podCidr) {
      assert FirstIPv4(cidrs, |node.podCidrs|);
    }
  }

  lemma {:induction false} FirstOneExists(cidrs: seq<CidrText>, c: CidrText)
    requires c in cidrs && IPv4Text(c)
    ensures exists i: nat :: FirstIPv4(cidrs, i)
  {
    if IPv4Text(cidrs[0]) {
      assert FirstIPv4(cidrs, 0);
    } else {
      FirstOneExists(cidrs[1..], c);
      var i: nat :| FirstIPv4(cidrs[1..], i);
      assert FirstIPv4(cidrs, i + 1);
    }
  }

  method GetIPv4RouteForNode(node: Node) returns (r: PodRoute)
    ensures r == PodRouteOf(node)
    ensures r.Net? ==> Canonical(r.net)
  {
    var cidrs := ListedCidrs(node);
    r := NoCidr;
    var i := 0;
    while i < |cidrs|
      invariant 0 <= i <= |cidrs|
      invariant PodRouteOf(node) == ScanCidrs(cidrs[i..], r)
      invariant r.Net? ==> Canonical(r.net)
    {
      assert cidrs[i..][1..] == cidrs[i + 1..];
      if !cidrs[i].Blank? {
        var parsed := ParseCidr(cidrs[i]);
        if parsed.None? {
          return BadCidr;
        }
        r := Net(parsed.value);
        if IsIPv4(parsed.value) {
          return;
        }
      }
      i := i + 1;
    }
  }

  /** A node that owns a pod block. */
  predicate HasNet(node: Node) { PodRouteOf(node).Net? }

  lemma NetIsCanonical(node: Node)
    requires HasNet(node)
    ensures Canonical(PodRouteOf(node).net)
  {
    ScanIsCanonical(ListedCidrs(node), NoCidr);
  }

  lemma ScanIsCanonical(cidrs: seq<CidrText>, current: PodRoute)
    requires current.Net? ==> Canonical(current.net)
    ensures ScanCidrs(cidrs, current).Net? ==> Canonical(ScanCidrs(cidrs, current).net)
  {}

  /** The route a node with a pod block is entitled to. */
  function OwnRoute(node: Node): Route
    requires HasNet(node)
  {
    Route(Text(PodRouteOf(node).net), node.providerId)
  }

  predicate Eligible(node: Node) { NeedSyncRoute(node) && node.providerId != "" && HasNet(node) }

  /** A route into the cluster's address range; without a configured range, any route. */
  ghost predicate InCluster(cluster: Option<IpNet>, text: CidrText) {
    cluster.None? || (ParseCidr(text).Some? && Within(ParseCidr(text).value, cluster.value))
  }

  /** A route that takes addresses of the node's block without being the node's route. */
  ghost predicate Conflicts(route: Route, node: Node) {
    && HasNet(node)
    && ParseCidr(route.destination).Some?
    && Within(ParseCidr(route.destination).value, PodRouteOf(node).net)
    && route != OwnRoute(node)
  }

  ghost predicate ConflictsWithSome(route: Route, nodes: seq<Node>) {
    exists n :: n in nodes && Conflicts(route, n)
  }

  /** Different nodes own disjoint pod blocks. */
  ghost predicate DisjointNodes(nodes: seq<Node>) {
    forall m, n :: m in nodes && n in nodes && HasNet(m) && HasNet(n) && m != n ==>
      Disjoint(PodRouteOf(m).net, PodRouteOf(n).net)
  }

  lemma OwnRouteConflictsWithNone(node: Node, nodes: seq<Node>)
    requires node in nodes && HasNet(node) && DisjointNodes(nodes)
    ensures !ConflictsWithSome(OwnRoute(node), nodes)
  {
    var net := PodRouteOf(node).net;
    NetIsCanonical(node);
    ParseText(net);
    EndsDecideContainment(net, net);
  }

  lemma OwnRouteIsInCluster(node: Node, cluster: Option<IpNet>)
    requires HasNet(node)
    requires cluster.Some? ==> Within(PodRouteOf(node).net, cluster.value)
    ensures InCluster(cluster, OwnRoute(node).destination)
  {
    NetIsCanonical(node);
    ParseText(PodRouteOf(node).net);
  }

  /** Owners of the same route text are the same node. */
  lemma SameTextSameNode(m: Node, n: Node, nodes: seq<Node>)
    requires m in nodes && n in nodes && HasNet(m) && HasNet(n) && DisjointNodes(nodes)
    requires OwnRoute(m).destination == OwnRoute(n).destination
    ensures m == n
  {
    NetIsCanonical(m);
    EndsDecideContainment(PodRouteOf(m).net, PodRouteOf(m).net);
  }

  method ConflictWithNodes(route: Route, nodes: seq<Node>) returns (b: bool)
    ensures b <==> ConflictsWithSome(route, nodes)
  {
    for i := 0 to |nodes|
      invariant !ConflictsWithSome(route, nodes[..i])
    {
      var node := nodes[i];
      assert nodes[..i + 1] == nodes[..i] + [node];
      var pod := GetIPv4RouteForNode(node);
      if pod.Net? {
        var equal, contains, err := ContainsRoute(Some(pod.net), route.destination);
        if !err && (contains || (equal && route.providerId != node.providerId)) {
          assert Conflicts(route, node);
          return true;
        }
        assert !Conflicts(route, node);
      }
    }
    assert nodes[..|nodes|] == nodes;
    return false;
  }

  /** A route meets a query; an empty provider id or a blank destination asks nothing. */
  predicate Matches(route: Route, providerId: string, cidr: CidrText) {
    && (providerId == "" || route.providerId == providerId)
    && (cidr.Blank? || route.destination == cidr)
  }

  datatype CreateResult = Created(route: Route) | Duplicate | Failed

  /** One route table of the cloud. The n-th call fails when `fault(n)`; a created route
      must have a destination the table does not have yet. */
  class RouteTable {
    var routes: map<CidrText, string>
    var calls: nat
    const fault: nat -> bool
    ghost var deleted: seq<Route>
    ghost var created: seq<Route>

    constructor (routes: map<CidrText, string>, fault: nat -> bool)
      ensures this.routes == routes && this.fault == fault && deleted == [] && created == []
    {
      this.routes, this.fault, calls := routes, fault, 0;
      deleted, created := [], [];
    }

    ghost predicate Has(route: Route)
      reads this
    {
      route.destination in routes && routes[route.destination] == route.providerId
    }

    method ListRoute() returns (ok: bool, list: seq<Route>)
      modifies this`calls
      ensures calls == old(calls) + 1 && (ok <==> !fault(old(calls)))
      ensures ok ==> forall r :: r in list <==> Has(r)
    {
      calls := calls + 1;
      if fault(calls - 1) { return false, []; }
      ok, list := true, [];
      var rest := routes.Keys;
      while rest != {}
        invariant rest <= routes.Keys
        invariant forall r :: r in list <==> Has(r) && r.destination !in rest
      {
        var c :| c in rest;
        list := list + [Route(c, routes[c])];
        rest := rest - {c};
      }
    }

    method DeleteRoute(route: Route) returns (ok: bool)
      modifies this
      ensures calls == old(calls) + 1 && (ok <==> !fault(old(calls)))
      ensures created == old(created)
      ensures !ok ==> routes == old(routes) && deleted == old(deleted)
      ensures ok && old(Has(route)) ==> routes == old(routes) - {route.destination} && deleted == old(deleted) + [route]
      ensures ok && !old(Has(route)) ==> routes == old(routes) && deleted == old(deleted)
    {
      calls := calls + 1;
      if fault(calls - 1) { return false; }
      if route.destination in routes && routes[route.destination] == route.providerId {
        routes := routes - {route.destination};
        deleted := deleted + [route];
      }
      return true;
    }

    method CreateRoute(route: Route) returns (r: CreateResult)
      modifies this
      ensures deleted == old(deleted)
      ensures calls == old(calls) + 1 && (r.Failed? <==> fault(old(calls)))
      ensures r.Duplicate? ==> route.destination in old(routes)
      ensures r.Created? ==> r.route == route && route.destination !in old(routes)
      ensures r.Created? ==>
                routes == old(routes)[route.destination := route.providerId] && created == old(created) + [route]
      ensures !r.Created? ==> routes == old(routes) && created == old(created)
    {
      calls := calls + 1;
      if fault(calls - 1) { return Failed; }
      if route.destination in routes { return Duplicate; }
      routes := routes[route.destination := route.providerId];
      created := created + [route];
      return Created(route);
    }

    /** The live lookup by provider id, destination, or both. */
    method FindRoute(providerId: string, cidr: CidrText) returns (ok: bool, found: Option<Route>)
      modifies this`calls
      ensures calls == old(calls) + 1 && (ok <==> !fault(old(calls)))
      ensures found.Some? ==> ok && Has(found.value) && Matches(found.value, providerId, cidr)
      ensures ok && found.None? ==> forall r :: Has(r) ==> !Matches(r, providerId, cidr)
    {
      calls := calls + 1;
      if fault(calls - 1) { return false, None; }
      if c :| c in routes && Matches(Route(c, routes[c]), providerId, cidr) {
        return true, Some(Route(c, routes[c]));
      }
      assert forall r :: Has(r) ==> r == Route(r.destination, routes[r.destination]);
      return true, None;
    }
  }

  const CREATE_STEPS := 3

  /** Creation with back-off: a failing call is repeated up to three times, a duplicate
      ends the attempts and counts as success when the wanted route is the one there. */
  method CreateRouteForInstance(table: RouteTable, want: Route) returns (r: Option<Route>)
    modifies table
    ensures table.deleted == old(table.deleted)
    ensures r.Some? ==> table.Has(r.value) && Matches(r.value, want.providerId, want.destination)
    ensures want.destination !in old(table.routes) ==>
              (r.Some? <==> !table.fault(old(table.calls)) || !table.fault(old(table.calls) + 1)
                            || !table.fault(old(table.calls) + 2))
    ensures r.None? ==> table.routes == old(table.routes) && table.calls <= old(table.calls) + 4
    ensures || (table.routes == old(table.routes) && table.created == old(table.created))
            || (want.destination !in old(table.routes) && table.created == old(table.created) + [want]
                && table.routes == old(table.routes)[want.destination := want.providerId])
    ensures (forall n :: !table.fault(n)) && (want.destination in old(table.routes) ==> old(table.Has(want))) ==>
              r.Some?
  {
    for step := 0 to CREATE_STEPS
      invariant table.routes == old(table.routes) && table.created == old(table.created)
                && table.deleted == old(table.deleted)
      invariant table.calls == old(table.calls) + step
      invariant forall n :: old(table.calls) <= n < table.calls ==> table.fault(n)
    {
      var c := table.CreateRoute(want);
      if c.Created? {
        return Some(c.route);
      }
      if c.Duplicate? {
        var ok, found := table.FindRoute(want.providerId, want.destination);
        assert Matches(want, want.providerId, want.destination);
        return if ok then found else None;
      }
    }
    assert table.fault(old(table.calls));
    return None;
  }

  /** The reconciler's memory of the route of each node. */
  class RouteReconciler {
    const table: RouteTable
    var nodeCache: map<string, Route>

    constructor (table: RouteTable)
      ensures this.table == table && nodeCache == map[]
    {
      this.table, nodeCache := table, map[];
    }

    /** Lookup in a list of routes read earlier; an empty list means asking the cloud, and
        an empty query is an error. */
    method FindRoute(providerId: string, cidr: CidrText, cached: seq<Route>) returns (ok: bool, found: Option<Route>)
      modifies table`calls
      ensures ok <==> (providerId != "" || !cidr.Blank?) && (cached == [] ==> !table.fault(old(table.calls)))
      ensures found.Some? ==> ok && Matches(found.value, providerId, cidr)
      ensures table.calls == old(table.calls) + (if cached == [] && (providerId != "" || !cidr.Blank?) then 1 else 0)
      ensures found.Some? ==> if cached != [] then found.value in cached else table.Has(found.value)
      ensures ok && found.None? ==>
                if cached != [] then forall r :: r in cached ==> !Matches(r, providerId, cidr)
                else forall r :: table.Has(r) ==> !Matches(r, providerId, cidr)
    {
      if providerId == "" && cidr.Blank? {
        return false, None;
      }
      if |cached| != 0 {
        for i := 0 to |cached|
          invariant forall r :: r in cached[..i] ==> !Matches(r, providerId, cidr)
        {
          var route := cached[i];
          if providerId != "" && !cidr.Blank? {
            if route.destination == cidr && route.providerId == providerId { return true, Some(route); }
          } else if providerId != "" {
            if route.providerId == providerId { return true, Some(route); }
          } else {
            if route.destination == cidr { return true, Some(route); }
          }
        }
        return true, None;
      }
      ok, found := table.FindRoute(providerId, cidr);
    }

    /** Adding the route of one node. A failed lookup is reported as success and leaves
        the table alone. */
    method AddRouteForNode(node: Node, want: Route, cached: seq<Route>) returns (err: bool)
      requires want.providerId != "" && !want.destination.Blank?
      modifies this, table
      ensures table.deleted == old(table.deleted)
      ensures || (table.routes == old(table.routes) && table.created == old(table.created))
              || (want.destination !in old(table.routes) && table.created == old(table.created) + [want]
                  && table.routes == old(table.routes)[want.destination := want.providerId])
      ensures (forall n :: !table.fault(n))
              && (want.destination in old(table.routes) || want in cached ==> old(table.Has(want)))
              ==> !err && table.Has(want)
      ensures err ==> table.routes == old(table.routes) && nodeCache == old(nodeCache)
                      && (want.destination in old(table.routes) || exists n :: table.fault(n))
      ensures want in cached ==> !err && table.calls == old(table.calls)
      ensures cached == [] && table.fault(old(table.calls)) ==>
                !err && table.routes == old(table.routes) && nodeCache == old(nodeCache)
      ensures !err && (cached == [] ==> !table.fault(old(table.calls))) ==>
                (table.Has(want) || want in cached) && node.name in nodeCache
      ensures cached == [] && old(table.Has(want)) ==> table.calls == old(table.calls) + 1
      ensures forall name :: name in old(nodeCache) ==> name in nodeCache && nodeCache[name] == old(nodeCache)[name]
      ensures forall name :: name in nodeCache && name !in old(nodeCache) ==>
                name == node.name && nodeCache[name] == want
    {
      var ok, found := FindRoute(want.providerId, want.destination, cached);
      if !ok {
        return false;
      }
      var route := found;
      err := false;
      if route.None? || route.value.destination != want.destination {
        route := CreateRouteForInstance(table, want);
        err := route.None?;
      }
      if route.Some? && node.name !in nodeCache {
        nodeCache := nodeCache[node.name := route.value];
      }
    }

    /** Deletion of one route if it is in the cluster and conflicts with a node. */
    method DeleteIfConflicting(cluster: Option<IpNet>, nodes: seq<Node>, route: Route)
      requires cluster.Some? ==> Canonical(cluster.value)
      modifies table
      ensures table.created == old(table.created)
      ensures || (table.routes == old(table.routes) && table.deleted == old(table.deleted))
              || (InCluster(cluster, route.destination) && ConflictsWithSome(route, nodes) && old(table.Has(route))
                  && table.routes == old(table.routes) - {route.destination}
                  && table.deleted == old(table.deleted) + [route])
      ensures (forall n :: !table.fault(n)) && InCluster(cluster, route.destination)
              && ConflictsWithSome(route, nodes) ==>
                !table.Has(route)
    {
      var contains, _, err := ContainsRoute(cluster, route.destination);
      if err || !contains { return; }
      var conflict := ConflictWithNodes(route, nodes);
      if conflict {
        var ok := table.DeleteRoute(route);
      }
    }

    /** Deletion of the listed in-cluster routes that conflict with a node. */
    method DeleteConflicts(cluster: Option<IpNet>, nodes: seq<Node>, routes: seq<Route>)
      requires cluster.Some? ==> Canonical(cluster.value)
      requires forall r :: r in routes <==> table.Has(r)
      modifies table
      ensures table.created == old(table.created) && old(table.deleted) <= table.deleted
      ensures forall r :: r in table.deleted[|old(table.deleted)|..] ==>
                old(table.Has(r)) && InCluster(cluster, r.destination) && ConflictsWithSome(r, nodes)
      ensures forall r :: old(table.Has(r)) ==>
                table.Has(r) || r in table.deleted[|old(table.deleted)|..]
      ensures forall r :: table.Has(r) ==> old(table.Has(r))
      ensures (forall n :: !table.fault(n)) ==>
                forall r :: table.Has(r) && InCluster(cluster, r.destination) ==> !ConflictsWithSome(r, nodes)
    {
      ghost var d := |table.deleted|;
      for i := 0 to |routes|
        invariant table.created == old(table.created) && old(table.deleted) <= table.deleted
        invariant forall r :: r in table.deleted[d..] ==>
                  old(table.Has(r)) && InCluster(cluster, r.destination) && ConflictsWithSome(r, nodes)
        invariant forall r :: old(table.Has(r)) ==> table.Has(r) || r in table.deleted[d..]
        invariant forall r :: table.Has(r) ==> old(table.Has(r))
        invariant (forall n :: !table.fault(n)) ==>
                    forall r :: r in routes[..i] && table.Has(r) && InCluster(cluster, r.destination) ==>
                      !ConflictsWithSome(r, nodes)
      {
        assert routes[..i + 1] == routes[..i] + [routes[i]];
        ghost var before := table.deleted[d..];
        DeleteIfConflicting(cluster, nodes, routes[i]);
        assert table.deleted[d..] == before || table.deleted[d..] == before + [routes[i]];
      }
      assert routes[..|routes|] == routes;
    }

    /** No eligible node's destination is routed elsewhere, and a listed own route is there. */
    ghost predicate NoStolenText(nodes: seq<Node>, routes: seq<Route>)
      reads this, table
    {
      forall n :: n in nodes && Eligible(n) && (OwnRoute(n).destination in table.routes || OwnRoute(n) in routes) ==>
        table.Has(OwnRoute(n))
    }

    method AddRouteIfEligible(node: Node, routes: seq<Route>)
      modifies this, table
      ensures table.deleted == old(table.deleted)
      ensures || (table.routes == old(table.routes) && table.created == old(table.created))
              || (Eligible(node) && var own := OwnRoute(node);
                  own.destination !in old(table.routes) && table.created == old(table.created) + [own]
                  && table.routes == old(table.routes)[own.destination := own.providerId])
      ensures (forall n :: !table.fault(n)) && Eligible(node)
              && (OwnRoute(node).destination in old(table.routes) || OwnRoute(node) in routes ==>
                  old(table.Has(OwnRoute(node))))
              ==> table.Has(OwnRoute(node))
    {
      if !NeedSyncRoute(node) || node.providerId == "" { return; }
      var pod := GetIPv4RouteForNode(node);
      if !pod.Net? { return; }
      var err := AddRouteForNode(node, Route(Text(pod.net), node.providerId), routes);
    }

    /** Adding the routes of the eligible nodes. */
    method AddRoutes(cluster: Option<IpNet>, nodes: seq<Node>, routes: seq<Route>)
      modifies this, table
      ensures table.deleted == old(table.deleted) && old(table.created) <= table.created
      ensures forall r :: r in table.created[|old(table.created)|..] ==>
                !old(table.Has(r)) && exists n :: n in nodes && Eligible(n) && r == OwnRoute(n)
      ensures forall r :: table.Has(r) ==> old(table.Has(r)) || r in table.created[|old(table.created)|..]
      ensures forall r :: old(table.Has(r)) ==> table.Has(r)
      ensures (forall n :: !table.fault(n)) && DisjointNodes(nodes) && old(NoStolenText(nodes, routes)) ==>
                forall n :: n in nodes && Eligible(n) ==> table.Has(OwnRoute(n))
    {
      ghost var c := |table.created|;
      for i := 0 to |nodes|
        invariant table.deleted == old(table.deleted) && old(table.created) <= table.created
        invariant forall r :: r in table.created[c..] ==>
                  !old(table.Has(r)) && exists n :: n in nodes && Eligible(n) && r == OwnRoute(n)
        invariant forall r :: table.Has(r) ==> old(table.Has(r)) || r in table.created[c..]
        invariant forall r :: old(table.Has(r)) ==> table.Has(r)
        invariant (forall n :: !table.fault(n)) && DisjointNodes(nodes) && old(NoStolenText(nodes, routes)) ==>
                forall n :: n in nodes[..i] && Eligible(n) ==> table.Has(OwnRoute(n))
      {
        var node := nodes[i];
        assert nodes[..i + 1] == nodes[..i] + [node];
        ghost var before := table.created[c..];
        if Eligible(node) && OwnRoute(node).destination in table.routes && DisjointNodes(nodes) {
          OwnedTextIsOwn(node, nodes, table.routes, old(table.routes), before);
        }
        AddRouteIfEligible(node, routes);
        assert table.created[c..] == before || (Eligible(node) && table.created[c..] == before + [OwnRoute(node)]);
      }
      assert nodes[..|nodes|] == nodes;
    }

    /** Every eligible node has its route and no in-cluster route conflicts with a node. */
    ghost predicate Synced(cluster: Option<IpNet>, nodes: seq<Node>)
      reads this, table
    {
      && (forall n :: n in nodes && HasNet(n) && n.providerId != "" && !n.excluded && !n.readyUnknown && !n.deleting ==>
            table.Has(OwnRoute(n)))
      && (forall r :: table.Has(r) && InCluster(cluster, r.destination) ==> !ConflictsWithSome(r, nodes))
    }

    /** One synchronisation of the table. Whatever fails, only in-cluster routes that
        conflict with a node are deleted and only routes of eligible nodes are created; so
        with disjoint pod blocks no node's own route is ever deleted. When no call fails
        and the pod blocks are disjoint and inside the cluster range, the table ends up
        synced; and a table that is synced already is left as it is. */
    method SyncTableRoutes(clusterCidr: CidrText, nodes: seq<Node>) returns (err: bool)
      modifies this, table
      ensures old(table.deleted) <= table.deleted && old(table.created) <= table.created
      ensures forall r :: r in table.deleted[|old(table.deleted)|..] ==>
                InCluster(ClusterNet(clusterCidr), r.destination) && ConflictsWithSome(r, nodes)
      ensures DisjointNodes(nodes) ==>
                forall n :: n in nodes && HasNet(n) ==> OwnRoute(n) !in table.deleted[|old(table.deleted)|..]
      ensures forall r :: r in table.created[|old(table.created)|..] ==>
                exists n :: n in nodes && HasNet(n) && r == OwnRoute(n) && n.providerId != ""
                  && !n.excluded && !n.readyUnknown && !n.deleting
      ensures forall r :: old(table.Has(r)) ==> table.Has(r) || r in table.deleted[|old(table.deleted)|..]
      ensures forall r :: table.Has(r) ==> old(table.Has(r)) || r in table.created[|old(table.created)|..]
      ensures forall r :: old(table.Has(r)) && !InCluster(ClusterNet(clusterCidr), r.destination) ==> table.Has(r)
      ensures old(Synced(ClusterNet(clusterCidr), nodes)) ==> forall r :: table.Has(r) <==> old(table.Has(r))
      ensures err <==> table.fault(old(table.calls)) || (!clusterCidr.Blank? && ParseCidr(clusterCidr).None?)
      ensures err ==> table.routes == old(table.routes)
      ensures !err && (forall n :: !table.fault(n)) && DisjointNodes(nodes)
              && NodesInCluster(ClusterNet(clusterCidr), nodes) ==>
                Synced(ClusterNet(clusterCidr), nodes)
    {
      var ok, routes := table.ListRoute();
      if !ok || BadCluster(clusterCidr) {
        return true;
      }
      var cluster := ClusterNet(clusterCidr);
      DeleteConflicts(cluster, nodes, routes);
      ghost var kept := table.routes;
      assert (forall n :: !table.fault(n)) && DisjointNodes(nodes) && NodesInCluster(cluster, nodes) ==>
          NoStolenText(nodes, routes) by {
        forall n | n in nodes && HasNet(n) && DisjointNodes(nodes) && NodesInCluster(cluster, nodes)
          ensures !ConflictsWithSome(OwnRoute(n), nodes)
          ensures OwnRoute(n).destination in kept && kept[OwnRoute(n).destination] != n.providerId ==>
                    var r := Route(OwnRoute(n).destination, kept[OwnRoute(n).destination]);
                    InCluster(cluster, r.destination) && ConflictsWithSome(r, nodes)
        {
          OwnRouteConflictsWithNone(n, nodes);
          StolenTextConflicts(n, nodes, cluster);
        }
      }
      AddRoutes(cluster, nodes, routes);
      if DisjointNodes(nodes) {
        forall n | n in nodes && HasNet(n)
          ensures !ConflictsWithSome(OwnRoute(n), nodes)
        {
          OwnRouteConflictsWithNone(n, nodes);
        }
      }
      return false;
    }
  }

  /** The configured cluster range: none, or the block it parses to. */
  function ClusterNet(text: CidrText): (r: Option<IpNet>)
    ensures r.Some? ==> Canonical(r.value)
  {
    ParseCidr(text)
  }

  predicate BadCluster(text: CidrText) { !text.Blank? && ParseCidr(text).None? }

  ghost predicate NodesInCluster(cluster: Option<IpNet>, nodes: seq<Node>) {
    cluster.Some? ==> forall n :: n in nodes && HasNet(n) ==> Within(PodRouteOf(n).net, cluster.value)
  }

  /** A route with a node's destination and another target is in the cluster and conflicts. */
  lemma StolenTextConflicts(node: Node, nodes: seq<Node>, cluster: Option<IpNet>)
    requires node in nodes && HasNet(node) && NodesInCluster(cluster, nodes)
    ensures forall p :: p != node.providerId ==>
              var r := Route(OwnRoute(node).destination, p);
              InCluster(cluster, r.destination) && ConflictsWithSome(r, nodes)
  {
    OwnRouteIsInCluster(node, cluster);
    NetIsCanonical(node);
    ParseText(PodRouteOf(node).net);
    forall p | p != node.providerId
      ensures ConflictsWithSome(Route(OwnRoute(node).destination, p), nodes)
    {
      assert Conflicts(Route(OwnRoute(node).destination, p), node);
    }
  }

  /** A destination that is a node's own, present in a table grown from `base` by own
      routes, is there as the node's route, or came with `base`. */
  lemma OwnedTextIsOwn(node: Node, nodes: seq<Node>, routes: map<CidrText, string>,
                       base: map<CidrText, string>, created: seq<Route>)
    requires node in nodes && Eligible(node) && DisjointNodes(nodes)
    requires OwnRoute(node).destination in routes
    requires forall c :: c in routes ==>
               (c in base && base[c] == routes[c]) || Route(c, routes[c]) in created
    requires forall r :: r in created ==> exists n :: n in nodes && Eligible(n) && r == OwnRoute(n)
    ensures routes[OwnRoute(node).destination] == node.providerId
            || (OwnRoute(node).destination in base
                && base[OwnRoute(node).destination] == routes[OwnRoute(node).destination])
  {
    var c := OwnRoute(node).destination;
    if Route(c, routes[c]) in created {
      var n :| n in nodes && Eligible(n) && Route(c, routes[c]) == OwnRoute(n);
      SameTextSameNode(n, node, nodes);
    }
  }
}
