/** Collecting the addresses of a service from its endpoint slices. An address may be listed
    several times; it is taken from the first endpoint that qualifies. */
module EndpointSlices {
  import opened Common

  datatype PodRef = PodRef(namespace: string, name: string)

  /** What reading a pod gave: whether it has the readiness gate of the service, and whether
      its containers are ready. */
  datatype PodRead = NotFound | ReadError | Pod(gated: bool, containersReady: bool)

  datatype Endpoint = Endpoint(
    addresses: seq<string>, ready: bool, terminating: bool, nodeName: Option<string>, pod: Option<PodRef>)

  datatype SlicePort = SlicePort(name: Option<string>, port: Option<int>)

  datatype Slice = Slice(ports: seq<SlicePort>, endpoints: seq<Endpoint>)

  datatype TargetPort = Number(port: int) | ByName(name: string)

  datatype Server = Server(ip: string, port: int, endpoint: Endpoint)

  /** What becomes of an address of an endpoint. */
  datatype Verdict = Taken | Awaited | Passed | Unreadable

  /** One listing of an address. */
  datatype Offer = Offer(server: Server, verdict: Verdict)

  function Judge(ep: Endpoint, pods: PodRef -> PodRead): Verdict {
    if ep.ready then Taken
    else if ep.pod.None? then Passed
    else
      match pods(ep.pod.value)
      case NotFound => Awaited
      case ReadError => Unreadable
      case Pod(gated, containersReady) => if !gated then Passed else if !containersReady then Awaited else Taken
  }

  /** Ready, or its pod has the readiness gate and ready containers. */
  ghost predicate CanServe(ep: Endpoint, pods: PodRef -> PodRead) {
    ep.ready || (ep.pod.Some? && pods(ep.pod.value) == Pod(true, true))
  }

  /** Not ready, and its pod is not there yet or has the gate but not ready containers. */
  ghost predicate MayServeLater(ep: Endpoint, pods: PodRef -> PodRead) {
    !ep.ready && ep.pod.Some? && (pods(ep.pod.value) == NotFound || pods(ep.pod.value) == Pod(true, false))
  }

  lemma JudgeIs(ep: Endpoint, pods: PodRef -> PodRead)
    ensures Judge(ep, pods) == Taken <==> CanServe(ep, pods)
    ensures Judge(ep, pods) == Awaited <==> MayServeLater(ep, pods)
    ensures Judge(ep, pods) == Unreadable <==> !ep.ready && ep.pod.Some? && pods(ep.pod.value) == ReadError
  {
  }

  // ---- the listings in order -------------------------------------------------------------

  function PortIn(ports: seq<SlicePort>, name: string): int {
    if ports == [] then 0
    else if ports[0].name == Some(name) then (if ports[0].port.Some? then ports[0].port.value else 0)
    else PortIn(ports[1..], name)
  }

  function PortOf(es: Slice, target: TargetPort): int {
    match target
    case Number(port) => port
    case ByName(name) => PortIn(es.ports, name)
  }

  function OffersOf(ep: Endpoint, port: int, pods: PodRef -> PodRead, n: nat): seq<Offer>
    requires n <= |ep.addresses|
  {
    if n == 0 then []
    else OffersOf(ep, port, pods, n - 1) + [Offer(Server(ep.addresses[n - 1], port, ep), Judge(ep, pods))]
  }

  /** A terminating endpoint offers nothing. */
  function EndpointOffers(ep: Endpoint, port: int, pods: PodRef -> PodRead): seq<Offer> {
    if ep.terminating then [] else OffersOf(ep, port, pods, |ep.addresses|)
  }

  function SliceOffers(eps: seq<Endpoint>, port: int, pods: PodRef -> PodRead): seq<Offer> {
    if eps == [] then []
    else SliceOffers(eps[..|eps| - 1], port, pods) + EndpointOffers(eps[|eps| - 1], port, pods)
  }

  function Offers(slices: seq<Slice>, target: TargetPort, pods: PodRef -> PodRead): seq<Offer> {
    if slices == [] then []
    else
      var es := slices[|slices| - 1];
      Offers(slices[..|slices| - 1], target, pods) + SliceOffers(es.endpoints, PortOf(es, target), pods)
  }

  // ---- what a pass over listings gives ---------------------------------------------------

  /** Some listing of the address qualifies. */
  ghost predicate Qualifies(offers: seq<Offer>, ip: string) {
    exists i :: 0 <= i < |offers| && offers[i].server.ip == ip && offers[i].verdict.Taken?
  }

  /** The first qualifying listing of each address. */
  ghost function Admitted(offers: seq<Offer>): seq<Server> {
    if offers == [] then []
    else
      var front, o := offers[..|offers| - 1], offers[|offers| - 1];
      if o.verdict.Taken? && !Qualifies(front, o.server.ip) then Admitted(front) + [o.server] else Admitted(front)
  }

  /** A listing with this verdict is reached before its address qualifies. */
  ghost predicate Reaches(offers: seq<Offer>, v: Verdict) {
    exists i :: 0 <= i < |offers| && offers[i].verdict == v && !Qualifies(offers[..i], offers[i].server.ip)
  }

  ghost predicate DistinctIps(s: seq<Server>) { forall i, j :: 0 <= i < j < |s| ==> s[i].ip != s[j].ip }

  ghost predicate HasIp(s: seq<Server>, ip: string) { exists i :: 0 <= i < |s| && s[i].ip == ip }

  lemma QualifiesStep(offers: seq<Offer>, o: Offer, ip: string)
    ensures Qualifies(offers + [o], ip) <==> Qualifies(offers, ip) || (o.server.ip == ip && o.verdict.Taken?)
  {
    var all := offers + [o];
    if Qualifies(offers, ip) {
      var i :| 0 <= i < |offers| && offers[i].server.ip == ip && offers[i].verdict.Taken?;
      assert all[i] == offers[i];
    }
    if o.server.ip == ip && o.verdict.Taken? { assert all[|offers|] == o; }
  }

  lemma ReachesStep(offers: seq<Offer>, o: Offer, v: Verdict)
    ensures Reaches(offers + [o], v) <==> Reaches(offers, v) || (o.verdict == v && !Qualifies(offers, o.server.ip))
  {
    var all := offers + [o];
    assert all[..|offers|] == offers;
    assert forall i :: 0 <= i < |offers| ==> all[..i] == offers[..i] && all[i] == offers[i];
    if Reaches(offers, v) {
      var i :| 0 <= i < |offers| && offers[i].verdict == v && !Qualifies(offers[..i], offers[i].server.ip);
      assert all[i].verdict == v && !Qualifies(all[..i], all[i].server.ip);
    }
    if o.verdict == v && !Qualifies(offers, o.server.ip) {
      assert all[|offers|] == o;
    }
  }

  /** Each address that qualifies is admitted exactly once, and nothing else is. */
  lemma {:induction false} AdmittedOnce(offers: seq<Offer>)
    ensures DistinctIps(Admitted(offers))
    ensures forall ip :: HasIp(Admitted(offers), ip) <==> Qualifies(offers, ip)
  {
    if offers != [] {
      var front, o := offers[..|offers| - 1], offers[|offers| - 1];
      assert offers == front + [o];
      AdmittedOnce(front);
      var r, r' := Admitted(offers), Admitted(front);
      forall ip
        ensures HasIp(r, ip) <==> Qualifies(offers, ip)
      {
        QualifiesStep(front, o, ip);
        if r != r' { HasIpStep(r', o.server, ip); }
      }
      if r != r' {
        forall i | 0 <= i < |r'|
          ensures r'[i].ip != o.server.ip
        {
          assert HasIp(r', r'[i].ip);
        }
      }
    }
  }

  lemma HasIpStep(s: seq<Server>, x: Server, ip: string)
    ensures HasIp(s + [x], ip) <==> HasIp(s, ip) || x.ip == ip
  {
    var all := s + [x];
    if HasIp(s, ip) {
      var i :| 0 <= i < |s| && s[i].ip == ip;
      assert all[i].ip == ip;
    }
    if x.ip == ip { assert all[|s|].ip == ip; }
  }

  /** What an admitted server is: the first qualifying listing of its address. */
  lemma {:induction false} AdmittedIsFirst(offers: seq<Offer>, x: Server)
    requires x in Admitted(offers)
    ensures exists i :: 0 <= i < |offers| && offers[i] == Offer(x, Taken) && !Qualifies(offers[..i], x.ip)
  {
    var front, o := offers[..|offers| - 1], offers[|offers| - 1];
    if x in Admitted(front) {
      AdmittedIsFirst(front, x);
      var i :| 0 <= i < |front| && front[i] == Offer(x, Taken) && !Qualifies(front[..i], x.ip);
      assert offers[i] == Offer(x, Taken) && offers[..i] == front[..i];
    } else {
      assert offers[|front|] == Offer(x, Taken) && offers[..|front|] == front;
    }
  }

  // ---- in terms of the slices ------------------------------------------------------------

  ghost predicate Lists(slices: seq<Slice>, ep: Endpoint) {
    exists i, j :: 0 <= i < |slices| && 0 <= j < |slices[i].endpoints| && slices[i].endpoints[j] == ep
  }

  /** An address of an endpoint that is not terminating and is ready, or whose pod has the
      readiness gate and ready containers. */
  ghost predicate Serves(slices: seq<Slice>, pods: PodRef -> PodRead, ip: string) {
    exists ep :: Lists(slices, ep) && !ep.terminating && ip in ep.addresses && CanServe(ep, pods)
  }

  ghost predicate Has(offers: seq<Offer>, o: Offer) { o in offers }

  lemma {:induction false} OffersOfAre(ep: Endpoint, port: int, pods: PodRef -> PodRead, n: nat, o: Offer)
    requires n <= |ep.addresses|
    ensures o in OffersOf(ep, port, pods, n) <==>
            && o.server.endpoint == ep && o.server.ip in ep.addresses[..n]
            && o.server.port == port && o.verdict == Judge(ep, pods)
  {
    if n > 0 {
      OffersOfAre(ep, port, pods, n - 1, o);
      assert ep.addresses[..n] == ep.addresses[..n - 1] + [ep.addresses[n - 1]];
    }
  }

  lemma {:induction false} SliceOffersAre(eps: seq<Endpoint>, port: int, pods: PodRef -> PodRead, o: Offer)
    ensures o in SliceOffers(eps, port, pods) <==>
            && o.server.endpoint in eps && !o.server.endpoint.terminating && o.server.ip in o.server.endpoint.addresses
            && o.server.port == port && o.verdict == Judge(o.server.endpoint, pods)
  {
    if eps != [] {
      var front, ep := eps[..|eps| - 1], eps[|eps| - 1];
      SliceOffersAre(front, port, pods, o);
      assert eps == front + [ep];
      OffersOfAre(ep, port, pods, |ep.addresses|, o);
      assert ep.addresses[..|ep.addresses|] == ep.addresses;
    }
  }

  lemma ListsStep(slices: seq<Slice>, ep: Endpoint)
    requires slices != []
    ensures Lists(slices, ep) <==> Lists(slices[..|slices| - 1], ep) || ep in slices[|slices| - 1].endpoints
  {
    var front, es := slices[..|slices| - 1], slices[|slices| - 1];
    if Lists(front, ep) {
      var i, j :| 0 <= i < |front| && 0 <= j < |front[i].endpoints| && front[i].endpoints[j] == ep;
      assert slices[i].endpoints[j] == ep;
    }
    if ep in es.endpoints {
      var j :| 0 <= j < |es.endpoints| && es.endpoints[j] == ep;
      assert slices[|front|].endpoints[j] == ep;
    }
    if Lists(slices, ep) {
      var i, j :| 0 <= i < |slices| && 0 <= j < |slices[i].endpoints| && slices[i].endpoints[j] == ep;
      if i < |front| { assert front[i].endpoints[j] == ep; }
    }
  }

  lemma {:induction false} OffersAre(slices: seq<Slice>, target: TargetPort,
                                     pods: PodRef -> PodRead, ep: Endpoint, ip: string, v: Verdict)
    ensures (exists o :: Has(Offers(slices, target, pods), o)
              && o.server.endpoint == ep && o.server.ip == ip && o.verdict == v)
            <==> (Lists(slices, ep) && !ep.terminating && ip in ep.addresses && v == Judge(ep, pods))
  {
    var all := Offers(slices, target, pods);
    if slices != [] {
      var front, es := slices[..|slices| - 1], slices[|slices| - 1];
      OffersAre(front, target, pods, ep, ip, v);
      ListsStep(slices, ep);
      var port := PortOf(es, target);
      forall o
        ensures Has(all, o) <==> Has(Offers(front, target, pods), o) || Has(SliceOffers(es.endpoints, port, pods), o)
      {}
      forall o { SliceOffersAre(es.endpoints, port, pods, o); }
      var o := Offer(Server(ip, port, ep), v);
      assert ep in es.endpoints && !ep.terminating && ip in ep.addresses && v == Judge(ep, pods) ==> Has(all, o);
    }
  }

  lemma QualifiesIsServes(slices: seq<Slice>, target: TargetPort, pods: PodRef -> PodRead, ip: string)
    ensures Qualifies(Offers(slices, target, pods), ip) <==> Serves(slices, pods, ip)
  {
    forall ep { JudgeIs(ep, pods); }
    var all := Offers(slices, target, pods);
    if Qualifies(all, ip) {
      var i :| 0 <= i < |all| && all[i].server.ip == ip && all[i].verdict.Taken?;
      assert Has(all, all[i]);
      OffersAre(slices, target, pods, all[i].server.endpoint, ip, Taken);
    }
    if Serves(slices, pods, ip) {
      var ep :| Lists(slices, ep) && !ep.terminating && ip in ep.addresses && CanServe(ep, pods);
      OffersAre(slices, target, pods, ep, ip, Taken);
      var o :| Has(all, o) && o.server.endpoint == ep && o.server.ip == ip && o.verdict == Taken;
      var i :| 0 <= i < |all| && all[i] == o;
    }
  }

  /** The addresses do not depend on how endpoints are ordered or spread over slices. */
  lemma AddressesAreOrderFree(slices: seq<Slice>, slices': seq<Slice>, target: TargetPort, pods: PodRef -> PodRead)
    requires SameEndpoints(slices, slices')
    ensures forall ip ::
              HasIp(Admitted(Offers(slices, target, pods)), ip) <==> HasIp(Admitted(Offers(slices', target, pods)), ip)
  {
    forall ip
      ensures HasIp(Admitted(Offers(slices, target, pods)), ip) <==> HasIp(Admitted(Offers(slices', target, pods)), ip)
    {
      AdmittedOnce(Offers(slices, target, pods));
      AdmittedOnce(Offers(slices', target, pods));
      QualifiesIsServes(slices, target, pods, ip);
      QualifiesIsServes(slices', target, pods, ip);
    }
  }

  /** The entry at k is the first of the name. */
  ghost predicate FirstNamed(ports: seq<SlicePort>, name: string, k: int) {
    0 <= k < |ports| && ports[k].name == Some(name) && forall j :: 0 <= j < k ==> ports[j].name != Some(name)
  }

  /** The port for a target: a number is taken as it is, a name gives the port of the first entry
      of that name, and without such an entry, or a port in it, 0. */
  ghost predicate GivesPort(ports: seq<SlicePort>, target: TargetPort, port: int) {
    match target
    case Number(n) => port == n
    case ByName(name) =>
      || (exists k :: FirstNamed(ports, name, k) && ports[k].port == Some(port))
      || (port == 0 && forall k :: FirstNamed(ports, name, k) ==> ports[k].port.None?)
  }

  lemma {:induction false} PortInIs(ports: seq<SlicePort>, name: string)
    ensures GivesPort(ports, ByName(name), PortIn(ports, name))
  {
    if ports != [] {
      PortInIs(ports[1..], name);
      if ports[0].name == Some(name) {
        assert FirstNamed(ports, name, 0);
      } else {
        assert forall k :: FirstNamed(ports, name, k) ==> FirstNamed(ports[1..], name, k - 1);
        assert forall k :: FirstNamed(ports[1..], name, k) ==> FirstNamed(ports, name, k + 1);
      }
    }
  }

  /** A server as some slice offers it: an endpoint of the slice that serves, at one of its
      addresses, on the port the slice gives. */
  ghost predicate OfferedBy(es: Slice, target: TargetPort, pods: PodRef -> PodRead, x: Server) {
    && x.endpoint in es.endpoints && !x.endpoint.terminating && CanServe(x.endpoint, pods)
    && x.ip in x.endpoint.addresses && GivesPort(es.ports, target, x.port)
  }

  lemma {:induction false} TakenIsOffered(slices: seq<Slice>, target: TargetPort, pods: PodRef -> PodRead, x: Server)
    requires Offer(x, Taken) in Offers(slices, target, pods)
    ensures exists es :: es in slices && OfferedBy(es, target, pods, x)
  {
    var front, es := slices[..|slices| - 1], slices[|slices| - 1];
    if Offer(x, Taken) in Offers(front, target, pods) {
      TakenIsOffered(front, target, pods, x);
    } else {
      SliceOffersAre(es.endpoints, PortOf(es, target), pods, Offer(x, Taken));
      JudgeIs(x.endpoint, pods);
      if target.ByName? { PortInIs(es.ports, target.name); }
      assert es in slices && OfferedBy(es, target, pods, x);
    }
  }

  lemma AdmittedAreOffered(slices: seq<Slice>, target: TargetPort, pods: PodRef -> PodRead)
    ensures forall x :: x in Admitted(Offers(slices, target, pods)) ==>
              exists es :: es in slices && OfferedBy(es, target, pods, x)
  {
    forall x | x in Admitted(Offers(slices, target, pods))
      ensures exists es :: es in slices && OfferedBy(es, target, pods, x)
    {
      AdmittedIsFirst(Offers(slices, target, pods), x);
      TakenIsOffered(slices, target, pods, x);
    }
  }

  // ---- requeue and error ------------------------------------------------------------------

  /** Some address has a listing with this verdict. */
  ghost predicate SomeWith(slices: seq<Slice>, pods: PodRef -> PodRead, v: Verdict) {
    exists ep :: Lists(slices, ep) && !ep.terminating && ep.addresses != [] && Judge(ep, pods) == v
  }

  /** Some address has such a listing and serves by none. */
  ghost predicate SomeOnlyWith(slices: seq<Slice>, pods: PodRef -> PodRead, v: Verdict) {
    exists ep, ip ::
      Lists(slices, ep) && !ep.terminating && ip in ep.addresses && Judge(ep, pods) == v && !Serves(slices, pods, ip)
  }

  ghost predicate SameEndpoints(slices: seq<Slice>, slices': seq<Slice>) {
    forall ep :: Lists(slices, ep) <==> Lists(slices', ep)
  }

  lemma QualifiesEarlier(offers: seq<Offer>, i: int, ip: string)
    requires 0 <= i <= |offers| && Qualifies(offers[..i], ip)
    ensures Qualifies(offers, ip)
  {
    var j :| 0 <= j < i && offers[..i][j].server.ip == ip && offers[..i][j].verdict.Taken?;
    assert offers[j] == offers[..i][j];
  }

  /** What is reached has the verdict; what only has the verdict is reached. */
  lemma ReachedInAnyOrder(slices: seq<Slice>, target: TargetPort, pods: PodRef -> PodRead, v: Verdict)
    ensures SomeOnlyWith(slices, pods, v) ==> Reaches(Offers(slices, target, pods), v)
    ensures Reaches(Offers(slices, target, pods), v) ==> SomeWith(slices, pods, v)
  {
    var all := Offers(slices, target, pods);
    if SomeOnlyWith(slices, pods, v) {
      var ep, ip :|
        Lists(slices, ep) && !ep.terminating && ip in ep.addresses && Judge(ep, pods) == v && !Serves(slices, pods, ip);
      OffersAre(slices, target, pods, ep, ip, v);
      var o :| Has(all, o) && o.server.endpoint == ep && o.server.ip == ip && o.verdict == v;
      var i :| 0 <= i < |all| && all[i] == o;
      QualifiesIsServes(slices, target, pods, ip);
      if Qualifies(all[..i], ip) { QualifiesEarlier(all, i, ip); assert false; }
      assert all[i].verdict == v && !Qualifies(all[..i], all[i].server.ip);
    }
    if Reaches(all, v) {
      var i :| 0 <= i < |all| && all[i].verdict == v && !Qualifies(all[..i], all[i].server.ip);
      assert Has(all, all[i]);
      OffersAre(slices, target, pods, all[i].server.endpoint, all[i].server.ip, v);
    }
  }

  /** The endpoints of all slices in one list. */
  ghost function Gathered(slices: seq<Slice>): seq<Endpoint> {
    if slices == [] then [] else Gathered(slices[..|slices| - 1]) + slices[|slices| - 1].endpoints
  }

  lemma {:induction false} GatheredIs(slices: seq<Slice>, ep: Endpoint)
    ensures ep in Gathered(slices) <==> Lists(slices, ep)
  {
    if slices != [] {
      GatheredIs(slices[..|slices| - 1], ep);
      ListsStep(slices, ep);
    }
  }

  /** One slice with the endpoints of a kind first. */
  ghost function Regathered(slices: seq<Slice>, p: Endpoint -> bool): seq<Slice> {
    [Slice([], Filter(p, Gathered(slices)) + Filter((ep: Endpoint) => !p(ep), Gathered(slices)))]
  }

  lemma RegatheredIsSame(slices: seq<Slice>, p: Endpoint -> bool)
    ensures SameEndpoints(slices, Regathered(slices, p))
  {
    var r := Regathered(slices, p);
    forall ep
      ensures Lists(slices, ep) <==> Lists(r, ep)
    {
      GatheredIs(slices, ep);
      ListsStep(r, ep);
    }
  }

  lemma SliceOffersLast(eps: seq<Endpoint>, ep: Endpoint, port: int, pods: PodRef -> PodRead)
    ensures SliceOffers(eps + [ep], port, pods) == SliceOffers(eps, port, pods) + EndpointOffers(ep, port, pods)
  {
    assert (eps + [ep])[..|eps + [ep]| - 1] == eps;
  }

  lemma Associate(x: seq<Offer>, y: seq<Offer>, z: seq<Offer>)
    ensures (x + y) + z == x + (y + z)
  {
  }

  lemma {:induction false} OffersOfTwo(a: seq<Endpoint>, b: seq<Endpoint>, port: int, pods: PodRef -> PodRead)
    ensures SliceOffers(a + b, port, pods) == SliceOffers(a, port, pods) + SliceOffers(b, port, pods)
  {
    if b == [] {
      assert a + b == a;
    } else {
      var front, ep := b[..|b| - 1], b[|b| - 1];
      assert b == front + [ep] && a + b == (a + front) + [ep];
      OffersOfTwo(a, front, port, pods);
      SliceOffersLast(a + front, ep, port, pods);
      SliceOffersLast(front, ep, port, pods);
      Associate(SliceOffers(a, port, pods), SliceOffers(front, port, pods), EndpointOffers(ep, port, pods));
    }
  }

  /** The offers of such a slice: first those of the kind, then the others. */
  lemma RegatheredOffers(slices: seq<Slice>, p: Endpoint -> bool, target: TargetPort, pods: PodRef -> PodRead)
    returns (a: seq<Offer>, b: seq<Offer>)
    ensures Offers(Regathered(slices, p), target, pods) == a + b
    ensures forall i :: 0 <= i < |a| ==> p(a[i].server.endpoint) && a[i].verdict == Judge(a[i].server.endpoint, pods)
    ensures forall i :: 0 <= i < |b| ==> !p(b[i].server.endpoint) && b[i].verdict == Judge(b[i].server.endpoint, pods)
  {
    var r := Regathered(slices, p);
    var q := (ep: Endpoint) => !p(ep);
    var x, y := Filter(p, Gathered(slices)), Filter(q, Gathered(slices));
    var port := PortOf(r[0], target);
    a, b := SliceOffers(x, port, pods), SliceOffers(y, port, pods);
    OffersOfTwo(x, y, port, pods);
    assert r[..0] == [] && Offers(r[..0], target, pods) == [];
    assert Offers(r, target, pods) == SliceOffers(r[0].endpoints, port, pods);
    forall i | 0 <= i < |a| ensures p(a[i].server.endpoint) && a[i].verdict == Judge(a[i].server.endpoint, pods) {
      SliceOffersAre(x, port, pods, a[i]);
    }
    forall i | 0 <= i < |b| ensures !p(b[i].server.endpoint) && b[i].verdict == Judge(b[i].server.endpoint, pods) {
      SliceOffersAre(y, port, pods, b[i]);
    }
  }

  /** With what qualifies in front, nothing whose address serves is reached. */
  lemma TakenFirstReachesNone(slices: seq<Slice>, target: TargetPort, pods: PodRef -> PodRead, v: Verdict)
    returns (r: seq<Slice>)
    requires !v.Taken? && !SomeOnlyWith(slices, pods, v)
    ensures SameEndpoints(slices, r) && !Reaches(Offers(r, target, pods), v)
  {
    var p := (ep: Endpoint) => Judge(ep, pods).Taken?;
    r := Regathered(slices, p);
    RegatheredIsSame(slices, p);
    var a, b := RegatheredOffers(slices, p, target, pods);
    var all := a + b;
    forall i | 0 <= i < |all| && all[i].verdict == v
      ensures Qualifies(all[..i], all[i].server.ip)
    {
      var o := all[i];
      assert Has(all, o);
      OffersAre(r, target, pods, o.server.endpoint, o.server.ip, v);
      QualifiesIsServes(r, target, pods, o.server.ip);
      ServesIsOrderFree(slices, r, pods, o.server.ip);
      var j :| 0 <= j < |all| && all[j].server.ip == o.server.ip && all[j].verdict.Taken?;
      assert j < |a| <= i;
      assert all[..i][j] == all[j];
    }
  }

  lemma ServesIsOrderFree(slices: seq<Slice>, slices': seq<Slice>, pods: PodRef -> PodRead, ip: string)
    requires SameEndpoints(slices, slices')
    ensures Serves(slices, pods, ip) <==> Serves(slices', pods, ip)
  {
  }

  /** With one kind in front, that kind is reached if there is any. */
  lemma FrontIsReached(slices: seq<Slice>, target: TargetPort, pods: PodRef -> PodRead, v: Verdict)
    returns (r: seq<Slice>)
    requires !v.Taken? && SomeWith(slices, pods, v)
    ensures SameEndpoints(slices, r) && Reaches(Offers(r, target, pods), v)
  {
    var p := (ep: Endpoint) => Judge(ep, pods) == v;
    r := Regathered(slices, p);
    RegatheredIsSame(slices, p);
    var a, b := RegatheredOffers(slices, p, target, pods);
    var all := a + b;
    var ep :| Lists(slices, ep) && !ep.terminating && ep.addresses != [] && Judge(ep, pods) == v;
    OffersAre(r, target, pods, ep, ep.addresses[0], v);
    var o :| Has(all, o) && o.server.endpoint == ep && o.verdict == v;
    assert o in a;
    assert all[0] == a[0] && !Qualifies(all[..0], all[0].server.ip);
  }

  /** Whether the pass asks for a requeue, and whether it fails, is the same for the same
      endpoints in every order and spread exactly when no address has such a listing, or one
      that does not serve has. */
  lemma OrderMattersExactly(slices: seq<Slice>, target: TargetPort, pods: PodRef -> PodRead, v: Verdict)
    requires !v.Taken?
    ensures (forall r :: SameEndpoints(slices, r) ==>
               (Reaches(Offers(r, target, pods), v) <==> Reaches(Offers(slices, target, pods), v)))
            <==> SomeOnlyWith(slices, pods, v) || !SomeWith(slices, pods, v)
  {
    if SomeOnlyWith(slices, pods, v) || !SomeWith(slices, pods, v) {
      forall r | SameEndpoints(slices, r)
        ensures Reaches(Offers(r, target, pods), v) <==> Reaches(Offers(slices, target, pods), v)
      {
        forall ip { ServesIsOrderFree(slices, r, pods, ip); }
        ReachedInAnyOrder(r, target, pods, v);
        ReachedInAnyOrder(slices, target, pods, v);
      }
    } else {
      var none := TakenFirstReachesNone(slices, target, pods, v);
      var some := FrontIsReached(slices, target, pods, v);
    }
  }

  // ---- the pass --------------------------------------------------------------------------

  /** The port a slice gives to a name: that of the first port with the name. */
  method FindPort(es: Slice, target: TargetPort) returns (port: int)
    ensures port == PortOf(es, target)
  {
    port := 0;
    if target.Number? { return target.port; }
    var i := 0;
    while i < |es.ports|
      invariant 0 <= i <= |es.ports| && port == 0
      invariant PortIn(es.ports, target.name) == PortIn(es.ports[i..], target.name)
    {
      var p := es.ports[i];
      if p.name == Some(target.name) {
        if p.port.Some? { port := p.port.value; }
        break;
      }
      i := i + 1;
    }
  }

  /** What a pass has collected, and whether it met something to wait for. */
  datatype Pass = Pass(servers: seq<Server>, seen: set<string>, potential: bool)

  ghost predicate Progress(done: seq<Offer>, p: Pass) {
    && p.servers == Admitted(done) && p.potential == Reaches(done, Awaited) && !Reaches(done, Unreadable)
    && forall ip :: ip in p.seen <==> Qualifies(done, ip)
  }

  lemma ReachesStays(done: seq<Offer>, more: seq<Offer>, v: Verdict)
    requires Reaches(done, v)
    ensures Reaches(done + more, v)
  {
    var i :| 0 <= i < |done| && done[i].verdict == v && !Qualifies(done[..i], done[i].server.ip);
    assert (done + more)[i] == done[i] && (done + more)[..i] == done[..i];
  }

  /** One listing of an address. */
  method TakeAddress(addr: string, ep: Endpoint, port: int, pods: PodRef -> PodRead, ghost done: seq<Offer>, p: Pass)
    returns (ok: bool, q: Pass)
    requires Progress(done, p)
    ensures var all := done + [Offer(Server(addr, port, ep), Judge(ep, pods))];
            if ok then Progress(all, q) else Reaches(all, Unreadable)
  {
    ghost var o := Offer(Server(addr, port, ep), Judge(ep, pods));
    forall ip { QualifiesStep(done, o, ip); }
    ReachesStep(done, o, Awaited);
    ReachesStep(done, o, Unreadable);
    assert (done + [o])[..|done|] == done;
    if addr in p.seen { return true, p; }
    if ep.ready {
      return true, Pass(p.servers + [Server(addr, port, ep)], p.seen + {addr}, p.potential);
    }
    if ep.pod.None? { return true, p; }
    match pods(ep.pod.value) {
      case NotFound => return true, p.(potential := true);
      case ReadError => return false, p;
      case Pod(gated, containersReady) =>
        if !gated { return true, p; }
        if !containersReady { return true, p.(potential := true); }
        return true, Pass(p.servers + [Server(addr, port, ep)], p.seen + {addr}, p.potential);
    }
  }

  lemma {:induction false} FailsEarly(ep: Endpoint, port: int,
                                      pods: PodRef -> PodRead, done: seq<Offer>, n: nat, m: nat)
    requires n <= m <= |ep.addresses| && Reaches(done + OffersOf(ep, port, pods, n), Unreadable)
    ensures Reaches(done + OffersOf(ep, port, pods, m), Unreadable)
    decreases m - n
  {
    if n < m {
      var o := Offer(Server(ep.addresses[n], port, ep), Judge(ep, pods));
      ReachesStays(done + OffersOf(ep, port, pods, n), [o], Unreadable);
      assert done + OffersOf(ep, port, pods, n + 1) == done + OffersOf(ep, port, pods, n) + [o];
      FailsEarly(ep, port, pods, done, n + 1, m);
    }
  }

  lemma OffersOfStep(ep: Endpoint, port: int, pods: PodRef -> PodRead, i: nat, done: seq<Offer>)
    requires i < |ep.addresses|
    ensures done + OffersOf(ep, port, pods, i + 1)
         == done + OffersOf(ep, port, pods, i) + [Offer(Server(ep.addresses[i], port, ep), Judge(ep, pods))]
  {
  }

  /** The addresses of one endpoint. */
  method TakeEndpoint(ep: Endpoint, port: int, pods: PodRef -> PodRead, ghost done: seq<Offer>, p: Pass)
    returns (ok: bool, q: Pass)
    requires Progress(done, p)
    ensures var all := done + EndpointOffers(ep, port, pods);
            if ok then Progress(all, q) else Reaches(all, Unreadable)
  {
    if ep.terminating {
      assert done + EndpointOffers(ep, port, pods) == done;
      return true, p;
    }
    ok, q := TakeAddresses(ep, port, pods, done, p);
  }

  method TakeAddresses(ep: Endpoint, port: int, pods: PodRef -> PodRead, ghost done: seq<Offer>, p: Pass)
    returns (ok: bool, q: Pass)
    requires Progress(done, p)
    ensures var all := done + OffersOf(ep, port, pods, |ep.addresses|);
            if ok then Progress(all, q) else Reaches(all, Unreadable)
  {
    ok, q := true, p;
    assert done + OffersOf(ep, port, pods, 0) == done;
    for i := 0 to |ep.addresses|
      invariant ok && Progress(done + OffersOf(ep, port, pods, i), q)
    {
      ghost var before := done + OffersOf(ep, port, pods, i);
      ok, q := TakeAddress(ep.addresses[i], ep, port, pods, before, q);
      OffersOfStep(ep, port, pods, i, done);
      if !ok {
        FailsEarly(ep, port, pods, done, i + 1, |ep.addresses|);
        return;
      }
    }
  }

  lemma SliceOffersStep(eps: seq<Endpoint>, i: int, port: int, pods: PodRef -> PodRead, done: seq<Offer>)
    requires 0 <= i < |eps|
    ensures done + SliceOffers(eps[..i + 1], port, pods)
         == done + SliceOffers(eps[..i], port, pods) + EndpointOffers(eps[i], port, pods)
  {
    assert eps[..i + 1][..i] == eps[..i];
  }

  lemma {:induction false} SliceFailsEarly(eps: seq<Endpoint>, i: int, port: int,
                                           pods: PodRef -> PodRead, done: seq<Offer>)
    requires 0 <= i <= |eps| && Reaches(done + SliceOffers(eps[..i], port, pods), Unreadable)
    ensures Reaches(done + SliceOffers(eps, port, pods), Unreadable)
    decreases |eps| - i
  {
    if i == |eps| {
      assert eps[..i] == eps;
    } else {
      SliceOffersStep(eps, i, port, pods, done);
      ReachesStays(done + SliceOffers(eps[..i], port, pods), EndpointOffers(eps[i], port, pods), Unreadable);
      SliceFailsEarly(eps, i + 1, port, pods, done);
    }
  }

  /** The endpoints of one slice. */
  method TakeSlice(eps: seq<Endpoint>, port: int, pods: PodRef -> PodRead, ghost done: seq<Offer>, p: Pass)
    returns (ok: bool, q: Pass)
    requires Progress(done, p)
    ensures var all := done + SliceOffers(eps, port, pods);
            if ok then Progress(all, q) else Reaches(all, Unreadable)
  {
    ok, q := true, p;
    assert done + SliceOffers(eps[..0], port, pods) == done;
    for i := 0 to |eps|
      invariant ok && Progress(done + SliceOffers(eps[..i], port, pods), q)
    {
      SliceOffersStep(eps, i, port, pods, done);
      ok, q := TakeEndpoint(eps[i], port, pods, done + SliceOffers(eps[..i], port, pods), q);
      if !ok {
        SliceFailsEarly(eps, i + 1, port, pods, done);
        return;
      }
    }
    assert eps[..|eps|] == eps;
  }

  lemma OffersStep(slices: seq<Slice>, i: int, target: TargetPort, pods: PodRef -> PodRead)
    requires 0 <= i < |slices|
    ensures Offers(slices[..i + 1], target, pods)
         == Offers(slices[..i], target, pods) + SliceOffers(slices[i].endpoints, PortOf(slices[i], target), pods)
  {
    assert slices[..i + 1][..i] == slices[..i];
  }

  lemma {:induction false} OffersFailEarly(slices: seq<Slice>, i: int, target: TargetPort, pods: PodRef -> PodRead)
    requires 0 <= i <= |slices| && Reaches(Offers(slices[..i], target, pods), Unreadable)
    ensures Reaches(Offers(slices, target, pods), Unreadable)
    decreases |slices| - i
  {
    if i == |slices| {
      assert slices[..i] == slices;
    } else {
      OffersStep(slices, i, target, pods);
      ReachesStays(Offers(slices[..i], target, pods),
                   SliceOffers(slices[i].endpoints, PortOf(slices[i], target), pods), Unreadable);
      OffersFailEarly(slices, i + 1, target, pods);
    }
  }

  /** The addresses of a service: exactly those that serve, each once, from its first
      qualifying listing. The pass fails exactly when it reaches a pod it cannot read. */
  method SetBackendsFromEndpointSlices(slices: seq<Slice>, target: TargetPort, pods: PodRef -> PodRead)
    returns (ok: bool, servers: seq<Server>, potential: bool)
    ensures ok <==> !Reaches(Offers(slices, target, pods), Unreadable)
    ensures ok ==> servers == Admitted(Offers(slices, target, pods)) && DistinctIps(servers)
    ensures ok ==> forall ip :: HasIp(servers, ip) <==> Serves(slices, pods, ip)
    ensures ok ==> forall x :: x in servers ==> exists es :: es in slices && OfferedBy(es, target, pods, x)
    ensures ok ==> (potential <==> Reaches(Offers(slices, target, pods), Awaited))
    ensures !ok ==> servers == [] && !potential
  {
    ok, servers, potential := true, [], false;
    if |slices| == 0 { return; }
    var pass := Pass([], {}, false);
    for i := 0 to |slices|
      invariant ok && Progress(Offers(slices[..i], target, pods), pass)
    {
      var port := FindPort(slices[i], target);
      OffersStep(slices, i, target, pods);
      ok, pass := TakeSlice(slices[i].endpoints, port, pods, Offers(slices[..i], target, pods), pass);
      if !ok {
        OffersFailEarly(slices, i + 1, target, pods);
        return false, [], false;
      }
    }
    assert slices[..|slices|] == slices;
    AdmittedOnce(Offers(slices, target, pods));
    forall ip { QualifiesIsServes(slices, target, pods, ip); }
    AdmittedAreOffered(slices, target, pods);
    return true, pass.servers, pass.potential;
  }
}
