/** The attributes of a classic load balancer listener: defaults on creation, and the
    attribute update computed from the wanted and the present listener. */
module ListenerAttributes {
  import opened Common
  import opened NamedKeys

  datatype Protocol = TCP | UDP | HTTP | HTTPS | OtherProtocol(name: string)

  const ON := "on"
  const OFF := "off"
  const DEFAULT_BANDWIDTH := -1
  const DEFAULT_SCHEDULER := "rr"

  /** The settings of a listener, by name. */
  datatype Setting =
    | Scheduler | PersistenceTimeout | EstablishedTimeout | EnableProxyProtocolV2
    | CertId | EnableHttp2 | TlsCipherPolicy
    | AclStatus | AclId | AclType
    | IdleTimeout | RequestTimeout
    | StickySession | StickySessionType | Cookie | CookieTimeout
    | ConnectionDrain | ConnectionDrainTimeout
    | XForwardedFor | XForwardedForProto | XForwardedForSLBPort | XForwardedForClientSrcPort
    | HealthCheckConnectPort | HealthCheckInterval | HealthyThreshold | UnhealthyThreshold
    | HealthCheckType | HealthCheckDomain | HealthCheckURI | HealthCheckHttpCode
    | HealthCheckConnectTimeout | HealthCheckSwitch | HealthCheck | HealthCheckTimeout | HealthCheckMethod

  datatype Value = Text(text: string) | Number(number: int) | Flag(flag: bool)

  /** A listener. A setting that is empty, zero or nil is not set, and not in the map. */
  datatype Listener = Listener(
    listenerPort: int, protocol: Protocol,
    description: string, vGroupName: string, vGroupId: nat,
    listenerForward: string, forwardPort: int, bandwidth: int, settings: map<Setting, Value>)

  predicate Is7Layer(p: Protocol) { p.HTTP? || p.HTTPS? }
  predicate Is4Layer(p: Protocol) { p.TCP? || p.UDP? }

  function Get(f: Setting, l: Listener): Option<Value> { if f in l.settings then Some(l.settings[f]) else None }

  predicate IsOn(f: Setting, l: Listener) { Get(f, l) == Some(Text(ON)) }

  predicate IsTrue(f: Setting, l: Listener) { Get(f, l) == Some(Flag(true)) }

  // ---- what an update follows --------------------------------------------------------------

  /** The protocol has the setting. */
  predicate Applicable(f: Setting, p: Protocol) {
    match f
    case PersistenceTimeout | EstablishedTimeout | HealthCheckType => p.TCP?
    case EnableProxyProtocolV2 | ConnectionDrain | ConnectionDrainTimeout => Is4Layer(p)
    case HealthCheckConnectTimeout | HealthCheckSwitch => Is4Layer(p)
    case CertId | EnableHttp2 | TlsCipherPolicy => p.HTTPS?
    case IdleTimeout | RequestTimeout | StickySession | StickySessionType | Cookie | CookieTimeout => Is7Layer(p)
    case XForwardedFor | XForwardedForProto | XForwardedForSLBPort | XForwardedForClientSrcPort => Is7Layer(p)
    case HealthCheck | HealthCheckTimeout | HealthCheckMethod => Is7Layer(p)
    case HealthCheckDomain | HealthCheckURI | HealthCheckHttpCode => !p.UDP?
    case _ => true
  }

  /** What else it takes for a set setting to be followed: list and type of access control need
      it on, a drain timeout needs draining on, a persistence timeout needs one to be there, a
      flag must differ as a truth value, and the first forwarding header is never followed. */
  predicate Enabled(f: Setting, local: Listener, remote: Listener) {
    match f
    case AclId | AclType => IsOn(AclStatus, local)
    case ConnectionDrainTimeout => IsOn(ConnectionDrain, local)
    case PersistenceTimeout => f in remote.settings
    case EnableProxyProtocolV2 => IsTrue(f, local) != IsTrue(f, remote)
    case XForwardedFor => false
    case _ => true
  }

  /** The certificate of HTTPS always follows the wanted one, any other setting when it is set. */
  predicate Followed(f: Setting, local: Listener, remote: Listener) {
    Applicable(f, local.protocol) && (f.CertId? || (f in local.settings && Enabled(f, local, remote)))
  }

  /** The settings an update looks at, in order: all but one. */
  const CHECKED: seq<Setting> := [
    Scheduler, PersistenceTimeout, EstablishedTimeout, EnableProxyProtocolV2, CertId, EnableHttp2,
    TlsCipherPolicy, AclStatus, AclId, AclType, IdleTimeout, RequestTimeout, StickySession,
    StickySessionType, Cookie, CookieTimeout, ConnectionDrain, ConnectionDrainTimeout,
    XForwardedForProto, XForwardedForSLBPort, XForwardedForClientSrcPort, HealthCheckConnectPort,
    HealthCheckInterval, HealthyThreshold, UnhealthyThreshold, HealthCheckType, HealthCheckDomain,
    HealthCheckURI, HealthCheckHttpCode, HealthCheckConnectTimeout, HealthCheckSwitch, HealthCheck,
    HealthCheckTimeout, HealthCheckMethod]

  lemma AllAreChecked(f: Setting)
    ensures !f.XForwardedFor? ==> f in CHECKED
  {
    match f
    case XForwardedFor =>
    case Scheduler => assert CHECKED[0] == f;
    case PersistenceTimeout => assert CHECKED[1] == f;
    case EstablishedTimeout => assert CHECKED[2] == f;
    case EnableProxyProtocolV2 => assert CHECKED[3] == f;
    case CertId => assert CHECKED[4] == f;
    case EnableHttp2 => assert CHECKED[5] == f;
    case TlsCipherPolicy => assert CHECKED[6] == f;
    case AclStatus => assert CHECKED[7] == f;
    case AclId => assert CHECKED[8] == f;
    case AclType => assert CHECKED[9] == f;
    case IdleTimeout => assert CHECKED[10] == f;
    case RequestTimeout => assert CHECKED[11] == f;
    case StickySession => assert CHECKED[12] == f;
    case StickySessionType => assert CHECKED[13] == f;
    case Cookie => assert CHECKED[14] == f;
    case CookieTimeout => assert CHECKED[15] == f;
    case ConnectionDrain => assert CHECKED[16] == f;
    case ConnectionDrainTimeout => assert CHECKED[17] == f;
    case XForwardedForProto => assert CHECKED[18] == f;
    case XForwardedForSLBPort => assert CHECKED[19] == f;
    case XForwardedForClientSrcPort => assert CHECKED[20] == f;
    case HealthCheckConnectPort => assert CHECKED[21] == f;
    case HealthCheckInterval => assert CHECKED[22] == f;
    case HealthyThreshold => assert CHECKED[23] == f;
    case UnhealthyThreshold => assert CHECKED[24] == f;
    case HealthCheckType => assert CHECKED[25] == f;
    case HealthCheckDomain => assert CHECKED[26] == f;
    case HealthCheckURI => assert CHECKED[27] == f;
    case HealthCheckHttpCode => assert CHECKED[28] == f;
    case HealthCheckConnectTimeout => assert CHECKED[29] == f;
    case HealthCheckSwitch => assert CHECKED[30] == f;
    case HealthCheck => assert CHECKED[31] == f;
    case HealthCheckTimeout => assert CHECKED[32] == f;
    case HealthCheckMethod => assert CHECKED[33] == f;
  }

  /** The settings b, with those of the given names as in a. */
  function Overlay(names: set<Setting>, a: map<Setting, Value>, b: map<Setting, Value>): (m: map<Setting, Value>)
    ensures forall f :: f in m <==> f in (if f in names then a else b)
    ensures forall f :: f in m ==> m[f] == (if f in names then a else b)[f]
  {
    map f | f in a.Keys + b.Keys && f in (if f in names then a else b) :: (if f in names then a else b)[f]
  }

  ghost function FollowedAmong(names: seq<Setting>, local: Listener, remote: Listener): set<Setting> {
    set f | f in names && Followed(f, local, remote)
  }

  /** The present listener with what is followed; description and group always are. */
  function Merged(local: Listener, remote: Listener): Listener {
    var names := set f | f in local.settings.Keys + remote.settings.Keys && Followed(f, local, remote);
    remote.(description := local.description, vGroupId := local.vGroupId,
            settings := Overlay(names, local.settings, remote.settings))
  }

  // ---- the update ---------------------------------------------------------------------------

  lemma OverlayStep(names: set<Setting>, f: Setting, a: map<Setting, Value>, b: map<Setting, Value>)
    ensures var m, m' := Overlay(names, a, b), Overlay(names + {f}, a, b);
            && (f in a ==> m' == m[f := a[f]]) && (f !in a ==> m' == m - {f})
            && (m' == b <==> m == b && (f in a <==> f in b) && (f in a && f in b ==> a[f] == b[f]))
  {
    var m, m' := Overlay(names, a, b), Overlay(names + {f}, a, b);
    if m' == b {
      assert forall g :: g in m <==> g in b;
      assert m == b;
    }
  }

  /** The comparisons of the settings, one after the other: a setting that is followed and
      differs is taken over. */
  method CompareSettings(order: seq<Setting>, local: Listener, remote: Listener)
    returns (need: bool, settings: map<Setting, Value>)
    ensures settings == Overlay(FollowedAmong(order, local, remote), local.settings, remote.settings)
    ensures need <==> settings != remote.settings
  {
    need, settings := false, remote.settings;
    ghost var names: set<Setting> := {};
    for i := 0 to |order|
      invariant names == FollowedAmong(order[..i], local, remote)
      invariant settings == Overlay(names, local.settings, remote.settings)
      invariant need <==> settings != remote.settings
    {
      var f := order[i];
      assert order[..i + 1] == order[..i] + [f];
      if Followed(f, local, remote) {
        OverlayStep(names, f, local.settings, remote.settings);
        names := names + {f};
        if Get(f, remote) != Get(f, local) {
          need := true;
          settings := if f in local.settings then settings[f := local.settings[f]] else settings - {f};
        }
      }
    }
    assert order[..|order|] == order;
  }

  lemma ChecksAll(local: Listener, remote: Listener)
    ensures Overlay(FollowedAmong(CHECKED, local, remote), local.settings, remote.settings)
         == Merged(local, remote).settings
  {
    forall f | Followed(f, local, remote) ensures f in FollowedAmong(CHECKED, local, remote) { AllAreChecked(f); }
    var m := Overlay(FollowedAmong(CHECKED, local, remote), local.settings, remote.settings);
    var u := Merged(local, remote).settings;
    assert forall f :: f in m <==> f in u;
  }

  /** What to send to update a listener, and whether to send it at all: exactly when the
      listener would change. */
  method IsNeedUpdate(local: Listener, remote: Listener) returns (needUpdate: bool, update: Listener)
    ensures update == Merged(local, remote)
    ensures needUpdate <==> update != remote
  {
    needUpdate, update := false, remote;
    if remote.description != local.description {
      needUpdate, update := true, update.(description := local.description);
    }
    if remote.vGroupId != local.vGroupId {
      needUpdate, update := true, update.(vGroupId := local.vGroupId);
    }
    var need, settings := CompareSettings(CHECKED, local, remote);
    ChecksAll(local, remote);
    needUpdate, update := needUpdate || need, update.(settings := settings);
  }

  // ---- what it amounts to, setting by setting -----------------------------------------------

  /** Whatever the wanted listener sets: each setting of the update is the wanted one where it
      is followed, and the present one elsewhere. */
  lemma UpdateBySetting(local: Listener, remote: Listener, f: Setting)
    ensures Get(f, Merged(local, remote)) == Get(f, if Followed(f, local, remote) then local else remote)
  {
  }

  /** What is unset, or what the protocol does not have, stays as it is, but for the
      certificate of HTTPS. */
  lemma UnsetIsLeftAlone(local: Listener, remote: Listener, f: Setting)
    requires !Applicable(f, local.protocol) || (f !in local.settings && !f.CertId?)
    ensures Get(f, Merged(local, remote)) == Get(f, remote)
  {
    UpdateBySetting(local, remote, f);
  }

  /** The settings of the protocols, compared: HTTPS has what HTTP has and what concerns the
      certificate; TCP has what UDP has, timeouts of its own and checks by HTTP; and what HTTP and
      UDP do not share. */
  lemma ProtocolsCompared(f: Setting)
    ensures f in {CertId, EnableHttp2, TlsCipherPolicy} <==> Applicable(f, HTTPS) && !Applicable(f, HTTP)
    ensures Applicable(f, HTTP) ==> Applicable(f, HTTPS)
    ensures f in {PersistenceTimeout, EstablishedTimeout, HealthCheckType, HealthCheckDomain, HealthCheckURI,
                  HealthCheckHttpCode}
            <==> Applicable(f, TCP) && !Applicable(f, UDP)
    ensures Applicable(f, UDP) ==> Applicable(f, TCP)
    ensures f in {EnableProxyProtocolV2, ConnectionDrain, ConnectionDrainTimeout, HealthCheckConnectTimeout,
                  HealthCheckSwitch}
            <==> Applicable(f, UDP) && !Applicable(f, HTTP)
    ensures f in {IdleTimeout, RequestTimeout, StickySession, StickySessionType, Cookie, CookieTimeout,
                  XForwardedFor, XForwardedForProto, XForwardedForSLBPort, XForwardedForClientSrcPort,
                  HealthCheck, HealthCheckTimeout, HealthCheckMethod,
                  HealthCheckDomain, HealthCheckURI, HealthCheckHttpCode}
            <==> Applicable(f, HTTP) && !Applicable(f, UDP)
    ensures f in {Scheduler, AclStatus, AclId, AclType, HealthCheckConnectPort, HealthCheckInterval, HealthyThreshold,
                  UnhealthyThreshold}
            <==> Applicable(f, HTTP) && Applicable(f, UDP)
  {
  }

  /** What is set, differs, and is ignored all the same. */
  lemma IgnoredExactly(local: Listener, remote: Listener, f: Setting)
    requires Applicable(f, local.protocol) && f in local.settings && Get(f, local) != Get(f, remote)
    ensures Get(f, Merged(local, remote)) == Get(f, remote) <==>
            || (f in {AclId, AclType} && Get(AclStatus, local) != Some(Text("on")))
            || (f == ConnectionDrainTimeout && Get(ConnectionDrain, local) != Some(Text("on")))
            || (f == PersistenceTimeout && f !in remote.settings)
            || (f == EnableProxyProtocolV2 && Get(f, local) != Some(Flag(true)) && Get(f, remote) != Some(Flag(true)))
            || f == XForwardedFor
  {
    UpdateBySetting(local, remote, f);
  }

  /** The certificate is what is asked for: of HTTPS always, of another protocol never touched. */
  lemma CertificateFollows(local: Listener, remote: Listener)
    ensures Get(CertId, Merged(local, remote)) == Get(CertId, if local.protocol.HTTPS? then local else remote)
  {
    UpdateBySetting(local, remote, CertId);
  }

  /** What is set and what the protocol has is taken over exactly when it is enabled, or was the
      same before. */
  lemma SetIsFollowed(local: Listener, remote: Listener, f: Setting)
    requires Applicable(f, local.protocol) && f in local.settings
    ensures Get(f, Merged(local, remote)) == Get(f, local) <==>
            Enabled(f, local, remote) || Get(f, local) == Get(f, remote)
  {
    UpdateBySetting(local, remote, f);
  }

  /** An update asks for nothing exactly when description and group are right and no followed
      setting differs. */
  lemma NothingToUpdate(local: Listener, remote: Listener)
    ensures Merged(local, remote) == remote <==>
            && local.description == remote.description && local.vGroupId == remote.vGroupId
            && forall f :: Followed(f, local, remote) ==> Get(f, local) == Get(f, remote)
  {
    var m := Merged(local, remote);
    forall f ensures Get(f, m) == Get(f, if Followed(f, local, remote) then local else remote) {
      UpdateBySetting(local, remote, f);
    }
    if forall f :: Get(f, m) == Get(f, remote) { SameSettings(m, remote); }
  }

  lemma SameSettings(a: Listener, b: Listener)
    requires forall f :: Get(f, a) == Get(f, b)
    ensures a.settings == b.settings
  {
    assert forall f :: f in a.settings <==> Get(f, a).Some?;
    assert forall f :: f in b.settings <==> Get(f, b).Some?;
  }

  /** A second update computed from the result of the first asks for nothing. */
  lemma UpdateIsIdempotent(local: Listener, remote: Listener)
    ensures Merged(local, Merged(local, remote)) == Merged(local, remote)
  {
    var m := Merged(local, remote);
    forall f | Followed(f, local, m)
      ensures Get(f, local) == Get(f, m)
    {
      UpdateBySetting(local, remote, f);
    }
    NothingToUpdate(local, m);
  }

  // ---- creation ----------------------------------------------------------------------------

  function WithDefault(l: Listener, f: Setting, text: string): Listener {
    if f in l.settings then l else l.(settings := l.settings[f := Text(text)])
  }

  /** The defaults a listener is created with. */
  function WithDefaults(l: Listener): Listener {
    var p := l.protocol;
    var l1 := WithDefault(l, Scheduler, DEFAULT_SCHEDULER);
    var l2 := if (p.TCP? || p.UDP? || p.HTTPS?) && l1.bandwidth == 0 then l1.(bandwidth := DEFAULT_BANDWIDTH) else l1;
    if Is7Layer(p) then WithDefault(WithDefault(l2, HealthCheck, OFF), StickySession, OFF) else l2
  }

  /** Defaults fill in three settings and the bandwidth, and change nothing that is set. */
  lemma DefaultsFillIn(l: Listener, f: Setting)
    ensures f in l.settings || !(f.Scheduler? || f.HealthCheck? || f.StickySession?) ==>
              Get(f, WithDefaults(l)) == Get(f, l)
    ensures Scheduler !in l.settings ==> Get(Scheduler, WithDefaults(l)) == Some(Text("rr"))
    ensures f in {HealthCheck, StickySession} && f !in l.settings ==>
              Get(f, WithDefaults(l)) == if l.protocol.HTTP? || l.protocol.HTTPS? then Some(Text("off")) else None
    ensures WithDefaults(l).(bandwidth := 0, settings := map[]) == l.(bandwidth := 0, settings := map[])
    ensures WithDefaults(l).bandwidth == if l.bandwidth == 0 && l.protocol in {TCP, UDP, HTTPS} then -1 else l.bandwidth
  {
    var l1 := WithDefault(l, Scheduler, DEFAULT_SCHEDULER);
    FillsOne(l, Scheduler, DEFAULT_SCHEDULER, f);
    FillsOne(l1, HealthCheck, OFF, f);
    FillsOne(WithDefault(l1, HealthCheck, OFF), StickySession, OFF, f);
  }

  lemma FillsOne(l: Listener, g: Setting, text: string, f: Setting)
    ensures f in l.settings || f != g ==> Get(f, WithDefault(l, g, text)) == Get(f, l)
  {
  }

  /** A listener needs no attribute update right after its creation. */
  lemma CreatedIsUpToDate(local: Listener)
    ensures Merged(local, WithDefaults(local)) == WithDefaults(local)
  {
    var made := WithDefaults(local);
    forall f | Followed(f, local, made)
      ensures Get(f, local) == Get(f, made)
    {
      DefaultsFillIn(local, f);
    }
    NothingToUpdate(local, made);
  }
}
