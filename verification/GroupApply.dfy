/** Applying the wanted server groups of a service to a load balancer: describing what is
    there, finding or creating the group of each port, and cleaning up what is left over. */
module GroupApply {
  import opened Common
  import opened NamedKeys
  import opened Backends
  import opened SlbGroups
  import opened ListenerAttributes

  /** The local or the remote model of a load balancer. */
  class LbModel {
    var groups: seq<VServerGroup>
    var listeners: seq<Listener>

    constructor (groups: seq<VServerGroup>, listeners: seq<Listener>)
      ensures this.groups == groups && this.listeners == listeners
    {
      this.groups, this.listeners := groups, listeners;
    }
  }

  /** A group is the service's own when its name says so and no user backend is in it. */
  predicate IsManaged(vg: VServerGroup, owner: Owner) { !vg.isUserManaged && ManagedBy(vg.name, owner) }

  // ---- describing ------------------------------------------------------------------------

  /** What a description of one group must show. */
  ghost predicate Faithful(vg: VServerGroup, groups: map<nat, VGroup>, owner: Owner, reused: seq<nat>) {
    && vg.id in groups && vg.name == groups[vg.id].name
    && if ManagedBy(vg.name, owner) || vg.id in reused then
         && Describes(vg.backends, groups[vg.id].backends, owner)
         && (vg.isUserManaged <==> LoadVGroupNamedKey(vg.name).None? || exists b :: b in vg.backends && b.isUserManaged)
       else
         vg.backends == []
  }

  /** Reading the backends of one group, marking those the service does not manage. */
  method DescribeBackends(g: Group, owner: Owner) returns (backends: seq<Backend>, userManaged: bool)
    ensures Describes(backends, g, owner)
    ensures userManaged <==> exists b :: b in backends && b.isUserManaged
  {
    backends, userManaged := [], false;
    var rest := g.Keys;
    while rest != {}
      invariant rest <= g.Keys
      invariant forall k :: k in g && k !in rest ==> InKeys(k, backends)
      invariant forall r :: r in backends ==>
                  KeyOf(r) in g && StoredOf(r) == g[KeyOf(r)] && r.isUserManaged == !ManagedBy(r.description, owner)
      invariant userManaged <==> exists b :: b in backends && b.isUserManaged
    {
      var k :| k in rest;
      var foreign := !ManagedBy(g[k].description, owner);
      var b := Backend(k.serverId, k.serverIp, k.port, g[k].weight, g[k].description, "", foreign);
      var before := backends;
      backends := backends + [b];
      userManaged := userManaged || foreign;
      assert KeyOf(b) == k && b in backends;
      forall k' | k' in g && k' !in rest - {k}
        ensures InKeys(k', backends)
      {
        if k' != k { var c :| c in before && KeyOf(c) == k'; assert c in backends; }
      }
      rest := rest - {k};
    }
  }

  ghost predicate DistinctIds(vgs: seq<VServerGroup>) { forall i, j :: 0 <= i < j < |vgs| ==> vgs[i].id != vgs[j].id }

  /** One group; its backends are read if it may be the service's, or is reused. */
  method DescribeGroup(cloud: SlbCloud, id: nat, owner: Owner, reused: seq<nat>) returns (ok: bool, vg: VServerGroup)
    requires id in cloud.groups
    modifies cloud`calls
    ensures vg.id == id && (ok ==> Faithful(vg, cloud.groups, owner, reused))
    ensures old(cloud.calls) <= cloud.calls <= old(cloud.calls) + 1
    ensures ok <==> cloud.calls == old(cloud.calls) || !cloud.fault(old(cloud.calls))
  {
    var g := cloud.groups[id];
    ok, vg := true, VServerGroup(id, g.name, LoadVGroupNamedKey(g.name).None?, []);
    if IsManaged(vg, owner) || id in reused {
      cloud.calls := cloud.calls + 1;
      if cloud.fault(cloud.calls - 1) { return false, vg; }
      var backends, userManaged := DescribeBackends(g.backends, owner);
      vg := vg.(backends := backends, isUserManaged := vg.isUserManaged || userManaged);
    }
  }

  method DescribeVServerGroups(cloud: SlbCloud, owner: Owner, reused: seq<nat>)
    returns (ok: bool, vgs: seq<VServerGroup>)
    modifies cloud`calls
    ensures ok ==> forall vg :: vg in vgs ==> Faithful(vg, cloud.groups, owner, reused)
    ensures ok ==> forall id :: id in cloud.groups ==> exists vg :: vg in vgs && vg.id == id
    ensures ok ==> DistinctIds(vgs)
    ensures cloud.calls > old(cloud.calls)
    ensures ok <==> forall n :: old(cloud.calls) <= n < cloud.calls ==> !cloud.fault(n)
  {
    cloud.calls := cloud.calls + 1;
    if cloud.fault(cloud.calls - 1) { return false, []; }
    ok, vgs := true, [];
    var rest := cloud.groups.Keys;
    while rest != {}
      invariant rest <= cloud.groups.Keys
      invariant forall vg :: vg in vgs ==> Faithful(vg, cloud.groups, owner, reused)
      invariant forall id :: id in cloud.groups && id !in rest ==> exists vg :: vg in vgs && vg.id == id
      invariant DistinctIds(vgs) && forall vg :: vg in vgs ==> vg.id !in rest
      invariant cloud.calls > old(cloud.calls)
      invariant ok && forall n :: old(cloud.calls) <= n < cloud.calls ==> !cloud.fault(n)
    {
      var id :| id in rest;
      var vg;
      ok, vg := DescribeGroup(cloud, id, owner, reused);
      if !ok { return; }
      var before := vgs;
      vgs := vgs + [vg];
      forall id' | id' in cloud.groups && id' !in rest - {id}
        ensures exists v :: v in vgs && v.id == id'
      {
        if id' == id { assert vg in vgs; } else { var v :| v in before && v.id == id'; assert v in vgs; }
      }
      rest := rest - {id};
    }
  }

  // ---- what must survive -------------------------------------------------------------------

  /** No backend that the service does not manage has been removed. */
  ghost predicate UserBackendsKept(before: map<nat, VGroup>, after: map<nat, VGroup>, owner: Owner) {
    forall id, k ::
      id in before && k in before[id].backends && !ManagedBy(before[id].backends[k].description, owner) ==>
        id in after && k in after[id].backends
  }

  /** A view of a group that marks no user backend as the service's. */
  ghost predicate ViewSafe(vg: VServerGroup, before: map<nat, VGroup>, owner: Owner) {
    vg.id in before ==>
      && (forall b :: b in vg.backends && !b.isUserManaged ==>
            KeyOf(b) in before[vg.id].backends && ManagedBy(before[vg.id].backends[KeyOf(b)].description, owner))
      && (IsManaged(vg, owner) ==>
            forall k :: k in before[vg.id].backends ==> ManagedBy(before[vg.id].backends[k].description, owner))
  }

  lemma FaithfulIsSafe(vg: VServerGroup, groups: map<nat, VGroup>, owner: Owner, reused: seq<nat>)
    requires Faithful(vg, groups, owner, reused)
    ensures ViewSafe(vg, groups, owner)
  {
    if IsManaged(vg, owner) {
      forall k | k in groups[vg.id].backends
        ensures ManagedBy(groups[vg.id].backends[k].description, owner)
      {
        var r :| r in vg.backends && KeyOf(r) == k;
      }
    }
  }

  /** Dropping keys that a safe view shows as the service's keeps the user's backends. */
  lemma DroppingManagedIsSafe(before: map<nat, VGroup>, mid: map<nat, VGroup>, after: map<nat, VGroup>,
                              vg: VServerGroup, added: seq<Backend>, dropped: seq<Backend>, owner: Owner)
    requires UserBackendsKept(before, mid, owner) && ViewSafe(vg, before, owner)
    requires forall b :: b in dropped ==> b in vg.backends && !b.isUserManaged
    requires OnlyGroup(mid, after, vg.id) && Evolves(BackendsOf(mid, vg.id), BackendsOf(after, vg.id), added, dropped)
    ensures UserBackendsKept(before, after, owner)
  {
    forall id, k | id in before && k in before[id].backends && !ManagedBy(before[id].backends[k].description, owner)
      ensures id in after && k in after[id].backends
    {
      if id == vg.id {
        assert k in BackendsOf(mid, id);
        assert !InKeys(k, dropped);
      }
    }
  }

  // ---- finding or creating the group of a port --------------------------------------------------

  /** A local group is looked up by id when it has one, by name otherwise. */
  predicate Matches(l: VServerGroup, r: VServerGroup) { if l.id != 0 then l.id == r.id else l.name == r.name }

  function FirstMatch(l: VServerGroup, remote: seq<VServerGroup>): (m: Option<VServerGroup>)
    ensures m.None? ==> forall r :: r in remote ==> !Matches(l, r)
    ensures m.Some? ==> m.value in remote && Matches(l, m.value)
  {
    if remote == [] then None
    else if Matches(l, remote[0]) then Some(remote[0])
    else FirstMatch(l, remote[1..])
  }

  /** It is the first one in the list. */
  lemma {:induction false} FirstMatchIsFirst(l: VServerGroup, remote: seq<VServerGroup>)
    ensures FirstMatch(l, remote).Some? ==>
              exists i :: 0 <= i < |remote| && remote[i] == FirstMatch(l, remote).value
                && forall j :: 0 <= j < i ==> if l.id != 0 then remote[j].id != l.id else remote[j].name != l.name
  {
    if remote != [] && !Matches(l, remote[0]) {
      FirstMatchIsFirst(l, remote[1..]);
      if FirstMatch(l, remote).Some? {
        var i :| 0 <= i < |remote[1..]| && remote[1..][i] == FirstMatch(l, remote).value
          && forall j :: 0 <= j < i ==> if l.id != 0 then remote[1..][j].id != l.id else remote[1..][j].name != l.name;
        assert remote[i + 1] == FirstMatch(l, remote).value;
        assert forall j :: 0 < j < i + 1 ==> remote[j] == remote[1..][j - 1];
      }
    }
  }

  lemma {:induction false} FirstMatchAppend(l: VServerGroup, remote: seq<VServerGroup>, more: seq<VServerGroup>)
    ensures FirstMatch(l, remote + more) ==
            if FirstMatch(l, remote).Some? then FirstMatch(l, remote) else FirstMatch(l, more)
  {
    if remote == [] {
      assert remote + more == more;
    } else {
      assert (remote + more)[1..] == remote[1..] + more;
      FirstMatchAppend(l, remote[1..], more);
    }
  }

  method FindGroup(l: VServerGroup, remote: seq<VServerGroup>) returns (m: Option<VServerGroup>)
    ensures m == FirstMatch(l, remote)
  {
    for i := 0 to |remote|
      invariant FirstMatch(l, remote) == FirstMatch(l, remote[i..])
    {
      assert remote[i..][1..] == remote[i + 1..];
      if l.id != 0 && l.id == remote[i].id { return Some(remote[i]); }
      if l.id == 0 && l.name == remote[i].name { return Some(remote[i]); }
    }
    return None;
  }

  method CreateGroup(cloud: SlbCloud, name: string) returns (id: nat)
    requires cloud.Valid()
    modifies cloud
    ensures cloud.Valid() && cloud.nextId >= old(cloud.nextId)
    ensures cloud.calls == old(cloud.calls) + 1 && (id == 0 <==> cloud.fault(old(cloud.calls)))
    ensures id == 0 ==>
              cloud.nextId == old(cloud.nextId) && cloud.groups == old(cloud.groups)
              && cloud.createdNames == old(cloud.createdNames)
    ensures id != 0 ==>
              && old(cloud.nextId) == id && cloud.nextId == id + 1
              && cloud.groups == old(cloud.groups)[id := VGroup(name, map[])]
              && cloud.createdNames == old(cloud.createdNames) + [name]
  {
    cloud.calls := cloud.calls + 1;
    if cloud.fault(cloud.calls - 1) { return 0; }
    id := cloud.nextId;
    cloud.nextId := cloud.nextId + 1;
    cloud.groups := cloud.groups[id := VGroup(name, map[])];
    cloud.createdNames := cloud.createdNames + [name];
  }

  /** The groups that existed `before` are numbered below the next id. */
  ghost predicate Numbered(before: map<nat, VGroup>, cloud: SlbCloud)
    reads cloud
  {
    cloud.Valid() && forall id :: id in before ==> id < cloud.nextId
  }

  /** The user's backends are all there, and the known views of groups are safe to act on. */
  ghost predicate SafeState(cloud: SlbCloud, before: map<nat, VGroup>, owner: Owner, remote: seq<VServerGroup>)
    reads cloud
  {
    && Numbered(before, cloud) && UserBackendsKept(before, cloud.groups, owner)
    && forall r :: r in remote ==>
         ViewSafe(r, before, owner) && r.id in cloud.groups && cloud.groups[r.id].name == r.name
  }

  ghost predicate NoFaults(cloud: SlbCloud) { forall n :: !cloud.fault(n) }

  /** All groups but one are as they were. */
  ghost predicate UntouchedBut(before: map<nat, VGroup>, after: map<nat, VGroup>, id: nat) {
    forall i :: i in before && i != id ==> i in after && after[i] == before[i]
  }

  /** No group went, nor got another name. */
  ghost predicate NamesKept(before: map<nat, VGroup>, after: map<nat, VGroup>) {
    forall i :: i in before ==> i in after && after[i].name == before[i].name
  }

  /** A wanted group is tied to the group of its own id, or to one of its name. */
  ghost predicate PlacedIn(l: VServerGroup, tied: VServerGroup, groups: map<nat, VGroup>) {
    tied.id in groups && ((l.id != 0 && tied.id == l.id) || groups[tied.id].name == l.name)
  }

  function IdSet(s: seq<VServerGroup>): set<nat> { set r | r in s :: r.id }

  /** The group found for a wanted one can be reconciled with it. */
  ghost predicate Attainable(l: VServerGroup, remote: seq<VServerGroup>, groups: map<nat, VGroup>, owner: Owner) {
    match FirstMatch(l, remote)
    case Some(r) => Reachable(BackendsOf(groups, r.id), l.backends, r.backends, owner)
    case None => true
  }

  /** What it comes to hold, or what is created for the wanted one, fits the quota. */
  ghost predicate Fits(l: VServerGroup, remote: seq<VServerGroup>, groups: map<nat, VGroup>, owner: Owner, quota: nat) {
    |Outcome(l, remote, groups, owner)| <= quota
  }

  /** What the group of a wanted one comes to hold. */
  ghost function Outcome(l: VServerGroup, remote: seq<VServerGroup>, groups: map<nat, VGroup>, owner: Owner): Group {
    match FirstMatch(l, remote)
    case Some(r) => Desired(BackendsOf(groups, r.id), l.backends, owner)
    case None => Upsert(map[], l.backends)
  }

  /** The group found for a wanted one has it all already, however old the view of it is. */
  ghost predicate AlreadyThere(l: VServerGroup, r: VServerGroup, groups: map<nat, VGroup>) {
    r.id in groups && Closed(BackendsOf(groups, r.id), l.backends, Deletions(r.backends, l.backends))
  }

  /** Its group can be brought to its outcome within the quota, or has it all within the quota. */
  ghost predicate Manageable(l: VServerGroup, remote: seq<VServerGroup>, groups: map<nat, VGroup>, owner: Owner,
                             quota: nat) {
    || (Attainable(l, remote, groups, owner) && Fits(l, remote, groups, owner, quota))
    || (FirstMatch(l, remote).Some? && AlreadyThere(l, FirstMatch(l, remote).value, groups)
        && |BackendsOf(groups, FirstMatch(l, remote).value.id)| <= quota)
  }

  /** Updating the group found for a wanted one. */
  method UpdateFound(cloud: SlbCloud, l: VServerGroup, r: VServerGroup, batchSize: int, ghost owner: Owner,
                     ghost before: map<nat, VGroup>) returns (err: bool)
    requires Numbered(before, cloud) && UserBackendsKept(before, cloud.groups, owner) && ViewSafe(r, before, owner)
             && l.id == r.id
    modifies cloud
    ensures Numbered(before, cloud) && UserBackendsKept(before, cloud.groups, owner)
    ensures OnlyGroup(old(cloud.groups), cloud.groups, l.id) && cloud.createdNames == old(cloud.createdNames)
    ensures !err && Reachable(BackendsOf(old(cloud.groups), l.id), l.backends, r.backends, owner) ==>
              BackendsOf(cloud.groups, l.id) == Desired(BackendsOf(old(cloud.groups), l.id), l.backends, owner)
    ensures AlreadyThere(l, r, old(cloud.groups)) ==>
              BackendsOf(cloud.groups, l.id) == BackendsOf(old(cloud.groups), l.id)
    ensures NoFaults(cloud) && l.id in old(cloud.groups)
            && (|| Reconcilable(BackendsOf(old(cloud.groups), l.id), l.backends, r.backends, owner, cloud.quota)
                || (AlreadyThere(l, r, old(cloud.groups)) && |BackendsOf(old(cloud.groups), l.id)| <= cloud.quota)) ==>
              !err
  {
    ghost var mid := cloud.groups;
    var e := UpdateVServerGroup(cloud, l, r, batchSize, owner);
    DroppingManagedIsSafe(before, mid, cloud.groups, r, l.backends, Deletions(r.backends, l.backends), owner);
    err := e != [];
  }

  /** Creating a group for a wanted one, empty at first, and filling it. */
  method CreateFilled(cloud: SlbCloud, l: VServerGroup, batchSize: int, ghost owner: Owner,
                      ghost before: map<nat, VGroup>)
    returns (id: nat, err: bool)
    requires Numbered(before, cloud) && UserBackendsKept(before, cloud.groups, owner)
    modifies cloud
    ensures Numbered(before, cloud) && UserBackendsKept(before, cloud.groups, owner)
    ensures NamesKept(old(cloud.groups), cloud.groups) && UntouchedBut(old(cloud.groups), cloud.groups, id)
    ensures !err ==>
              && cloud.groups.Keys == old(cloud.groups).Keys + {id}
              && id in cloud.groups && id !in before && id !in old(cloud.groups)
              && cloud.groups[id] == VGroup(l.name, Upsert(map[], l.backends))
              && cloud.createdNames == old(cloud.createdNames) + [l.name]
    ensures NoFaults(cloud) && |Upsert(map[], l.backends)| <= cloud.quota ==> !err
  {
    id := CreateGroup(cloud, l.name);
    if id == 0 { return id, true; }
    ghost var mid := cloud.groups;
    assert BackendsOf(mid, id) == map[] && BackendsOf(mid, id).Keys + Keys(l.backends) == Keys(l.backends);
    UpsertKeys(map[], l.backends);
    assert Upsert(map[], l.backends).Keys == Keys(l.backends);
    NewGroupKeeps(before, old(cloud.groups), mid, id, l.name, owner);
    var e := BatchAdd(cloud, id, l.backends, batchSize);
    NewGroupIsNoConcern(before, mid, cloud.groups, id, owner);
    NewGroupIsAll(old(cloud.groups), mid, cloud.groups, id, l.name);
    err := e != [];
  }

  lemma NewGroupKeeps(before: map<nat, VGroup>, g0: map<nat, VGroup>, mid: map<nat, VGroup>, id: nat, name: string,
                      owner: Owner)
    requires UserBackendsKept(before, g0, owner) && id !in before && mid == g0[id := VGroup(name, map[])]
    ensures UserBackendsKept(before, mid, owner)
  {
  }

  /** A new group that is filled is the only change. */
  lemma NewGroupIsAll(g0: map<nat, VGroup>, mid: map<nat, VGroup>, g: map<nat, VGroup>, id: nat, name: string)
    requires id !in g0 && mid == g0[id := VGroup(name, map[])] && OnlyGroup(mid, g, id)
    ensures NamesKept(g0, g) && UntouchedBut(g0, g, id) && g.Keys == g0.Keys + {id}
    ensures g[id] == VGroup(name, BackendsOf(g, id))
  {
  }

  /** One wanted group: updating the group found for it, or creating one and filling it. Without
      an error the group then holds the user's backends and the wanted ones. */
  method ApplyGroup(cloud: SlbCloud, l: VServerGroup, remote: seq<VServerGroup>, batchSize: int, ghost owner: Owner,
                    ghost before: map<nat, VGroup>) returns (tied: VServerGroup, appended: seq<VServerGroup>, err: bool)
    requires SafeState(cloud, before, owner, remote)
    modifies cloud
    ensures SafeState(cloud, before, owner, remote + appended)
    ensures NamesKept(old(cloud.groups), cloud.groups) && (!err ==> PlacedIn(l, tied, cloud.groups))
    ensures !err ==> cloud.groups.Keys == old(cloud.groups).Keys + IdSet(appended)
    ensures TiesGroup(l, remote, old(cloud.groups), tied, appended, err) && (appended != [] ==> tied.id !in before)
    ensures !err ==> cloud.createdNames == old(cloud.createdNames) + Names(appended)
    ensures UntouchedBut(old(cloud.groups), cloud.groups, tied.id)
    ensures !err && Attainable(l, remote, old(cloud.groups), owner) ==>
              BackendsOf(cloud.groups, tied.id) == Outcome(l, remote, old(cloud.groups), owner)
    ensures FirstMatch(l, remote).Some? && AlreadyThere(l, FirstMatch(l, remote).value, old(cloud.groups)) ==>
              BackendsOf(cloud.groups, tied.id) == BackendsOf(old(cloud.groups), tied.id)
    ensures NoFaults(cloud) && Manageable(l, remote, old(cloud.groups), owner, cloud.quota) ==> !err
  {
    tied, appended, err := l, [], false;
    var found := FindGroup(l, remote);
    if found.Some? {
      tied := l.(id := found.value.id);
      err := UpdateFound(cloud, tied, found.value, batchSize, owner, before);
    } else {
      var id;
      id, err := CreateFilled(cloud, l, batchSize, owner, before);
      tied := l.(id := id);
      if !err { appended := [tied]; }
    }
  }

  /** How a wanted group is resolved: to the first match, or to a group of its own that is new
      and from then on known. */
  ghost predicate TiesGroup(l: VServerGroup, remote: seq<VServerGroup>, groups: map<nat, VGroup>,
                            tied: VServerGroup, appended: seq<VServerGroup>, err: bool) {
    && tied == l.(id := tied.id)
    && (FirstMatch(l, remote).Some? ==> tied.id == FirstMatch(l, remote).value.id && appended == [])
    && (FirstMatch(l, remote).None? ==> if err then appended == [] else appended == [tied] && tied.id !in groups)
  }

  lemma NewGroupIsNoConcern(before: map<nat, VGroup>, mid: map<nat, VGroup>, after: map<nat, VGroup>, id: nat,
                            owner: Owner)
    requires UserBackendsKept(before, mid, owner) && OnlyGroup(mid, after, id) && id !in before
    ensures UserBackendsKept(before, after, owner)
  {}

  /** A wanted group, as it was and as it is now, against the groups of the load balancer. */
  ghost predicate Resolved(l: VServerGroup, tied: VServerGroup, remote: seq<VServerGroup>) {
    && tied == l.(id := tied.id)
    && (l.id == 0 || FirstMatch(l, remote).Some? ==>
          FirstMatch(l, remote).Some? && tied.id == FirstMatch(l, remote).value.id)
  }

  ghost predicate AllPlaced(wanted: seq<VServerGroup>, applied: seq<VServerGroup>, n: nat, groups: map<nat, VGroup>) {
    n <= |wanted| == |applied| && forall j :: 0 <= j < n ==> PlacedIn(wanted[j], applied[j], groups)
  }

  ghost predicate AllResolved(wanted: seq<VServerGroup>, applied: seq<VServerGroup>, n: nat,
                              remote: seq<VServerGroup>) {
    n <= |wanted| == |applied| && forall j :: 0 <= j < n ==> Resolved(wanted[j], applied[j], remote)
  }

  lemma ResolvedAppend(l: VServerGroup, tied: VServerGroup, remote: seq<VServerGroup>, more: seq<VServerGroup>)
    requires Resolved(l, tied, remote) && (l.id != 0 ==> FirstMatch(l, remote).Some?)
    ensures Resolved(l, tied, remote + more)
  {
    FirstMatchAppend(l, remote, more);
  }

  /** Every reused group id is one of the load balancer's groups. */
  ghost predicate ReusedExist(local: seq<VServerGroup>, remote: seq<VServerGroup>) {
    forall l :: l in local && l.id != 0 ==> exists r :: r in remote && r.id == l.id
  }

  function Names(s: seq<VServerGroup>): seq<string> { seq(|s|, i requires 0 <= i < |s| => s[i].name) }

  /** The created groups: one per name, none of a name that was there. */
  ghost predicate FreshNames(old_: seq<VServerGroup>, created: seq<VServerGroup>) {
    && (forall i, j :: 0 <= i < j < |created| ==> created[i].name != created[j].name)
    && (forall r, c :: r in old_ && c in created ==> r.name != c.name)
  }

  /** Wanted groups are for different groups, or agree on what one is to hold, each without
      contradicting itself. */
  ghost predicate Compatible(wanted: seq<VServerGroup>, remote: seq<VServerGroup>, groups: map<nat, VGroup>,
                             owner: Owner) {
    forall i, j :: 0 <= i < j < |wanted| ==>
      || Apart(wanted[i], wanted[j], remote)
      || (Agree(wanted[i], wanted[j], remote, groups, owner)
          && Consistent(wanted[i].backends) && Consistent(wanted[j].backends))
  }

  ghost predicate Agree(l: VServerGroup, l': VServerGroup, remote: seq<VServerGroup>, groups: map<nat, VGroup>,
                        owner: Owner) {
    Outcome(l, remote, groups, owner) == Outcome(l', remote, groups, owner)
  }

  ghost predicate Apart(l: VServerGroup, l': VServerGroup, remote: seq<VServerGroup>) {
    && (l.id == 0 && l'.id == 0 ==> l.name != l'.name)
    && (FirstMatch(l, remote).Some? && FirstMatch(l', remote).Some? ==>
          FirstMatch(l, remote).value.id != FirstMatch(l', remote).value.id)
  }

  /** Nothing but failures and the quota stands in the way of bringing every group to its
      outcome. */
  ghost predicate Clear(wanted: seq<VServerGroup>, remote: seq<VServerGroup>, groups: map<nat, VGroup>,
                        owner: Owner) {
    && ReusedExist(wanted, remote) && Compatible(wanted, remote, groups, owner)
    && (forall r :: r in remote ==> r.id in groups)
    && forall i :: 0 <= i < |wanted| ==> Attainable(wanted[i], remote, groups, owner)
  }

  ghost predicate AllFit(wanted: seq<VServerGroup>, remote: seq<VServerGroup>, groups: map<nat, VGroup>,
                         owner: Owner, quota: nat) {
    forall i :: 0 <= i < |wanted| ==> Fits(wanted[i], remote, groups, owner, quota)
  }

  /** The first n wanted groups have their outcome, each in a group that was found for it or is
      new. */
  ghost predicate Reached(wanted: seq<VServerGroup>, applied: seq<VServerGroup>, n: nat, r0: seq<VServerGroup>,
                          g0: map<nat, VGroup>, g: map<nat, VGroup>, owner: Owner) {
    && n <= |wanted| == |applied|
    && (forall j :: 0 <= j < n ==>
          applied[j].id in g && BackendsOf(g, applied[j].id) == Outcome(wanted[j], r0, g0, owner))
    && (forall j :: 0 <= j < n ==> FoundOrNew(wanted[j], applied[j].id, r0, g0))
  }

  ghost predicate FoundOrNew(l: VServerGroup, id: nat, r0: seq<VServerGroup>, g0: map<nat, VGroup>) {
    if FirstMatch(l, r0).Some? then id == FirstMatch(l, r0).value.id else id !in g0
  }

  /** The group found for a wanted one is as it was, or has its outcome already. */
  ghost predicate Ready(l: VServerGroup, r0: seq<VServerGroup>, g0: map<nat, VGroup>, g: map<nat, VGroup>,
                        owner: Owner) {
    FirstMatch(l, r0).Some? ==>
      var id := FirstMatch(l, r0).value.id;
      id in g0 && id in g && (g[id] == g0[id] || BackendsOf(g, id) == Outcome(l, r0, g0, owner))
  }

  /** The created groups are those of earlier wanted ones that were not found. */
  ghost predicate Made(created: seq<VServerGroup>, wanted: seq<VServerGroup>, applied: seq<VServerGroup>, n: nat,
                       r0: seq<VServerGroup>) {
    n <= |wanted| == |applied| && forall c :: c in created ==>
      exists j :: 0 <= j < n && MadeFor(c, wanted[j], applied[j], r0)
  }

  ghost predicate MadeFor(c: VServerGroup, l: VServerGroup, tied: VServerGroup, r0: seq<VServerGroup>) {
    c == tied == l.(id := c.id) && l.id == 0 && FirstMatch(l, r0).None?
  }

  ghost predicate Outcomes(wanted: seq<VServerGroup>, applied: seq<VServerGroup>, n: nat, r0: seq<VServerGroup>,
                           created: seq<VServerGroup>, g0: map<nat, VGroup>, g: map<nat, VGroup>, owner: Owner) {
    && Reached(wanted, applied, n, r0, g0, g, owner) && Made(created, wanted, applied, n, r0) && g0.Keys <= g.Keys
    && forall j :: n <= j < |wanted| ==> Ready(wanted[j], r0, g0, g, owner)
  }

  /** A group with its outcome has it all, by the old view as well. */
  lemma DesiredIsClosed(g: Group, local: seq<Backend>, remote: seq<Backend>, owner: Owner)
    requires Describes(remote, g, owner) && Consistent(local)
    ensures Closed(Desired(g, local, owner), local, Deletions(remote, local))
  {
    DesiredIsSettled(g, local, owner);
    DiffByKeys(remote, local, g, owner);
    forall k | InKeys(k, Deletions(remote, local))
      ensures k !in Desired(g, local, owner)
    {
      DesiredAt(g, local, owner, k);
    }
  }

  /** The same of a new group, by the view of another wanted one that it was filled for. */
  lemma FilledIsClosed(local: seq<Backend>, other: seq<Backend>)
    requires Consistent(local) && Upsert(map[], other) == Upsert(map[], local)
    ensures Closed(Upsert(map[], local), local, Deletions(other, local)) && |Upsert(map[], local)| == |Keys(local)|
  {
    UpsertValues(map[], local);
    UpsertKeys(map[], local);
    UpsertKeys(map[], other);
    assert Upsert(map[], local).Keys == Keys(local);
    FilterEmpty(Stale(local), other);
    forall r | r in other
      ensures !Stale(local)(r)
    {
      assert InKeys(KeyOf(r), other);
      var l :| l in local && KeyOf(l) == KeyOf(r);
      SlotIsKey(l, r);
    }
  }

  /** How the next wanted group finds its group: still to be brought to its outcome, or there
      already. */
  lemma NextIsReady(wanted: seq<VServerGroup>, applied: seq<VServerGroup>, n: nat, r0: seq<VServerGroup>,
                    created: seq<VServerGroup>, g0: map<nat, VGroup>, g: map<nat, VGroup>, owner: Owner)
    requires Clear(wanted, r0, g0, owner) && Outcomes(wanted, applied, n, r0, created, g0, g, owner)
             && n < |wanted|
    ensures var l, remote, want := wanted[n], r0 + created, Outcome(wanted[n], r0, g0, owner);
            || (Attainable(l, remote, g, owner) && Outcome(l, remote, g, owner) == want)
            || (FirstMatch(l, remote).Some? && AlreadyThere(l, FirstMatch(l, remote).value, g)
                && BackendsOf(g, FirstMatch(l, remote).value.id) == want)
    ensures FirstMatch(wanted[n], r0).Some? ==> FirstMatch(wanted[n], r0 + created) == FirstMatch(wanted[n], r0)
  {
    var l := wanted[n];
    FirstMatchAppend(l, r0, created);
    if FirstMatch(l, r0).Some? {
      var r := FirstMatch(l, r0).value;
      DesiredIsClosed(BackendsOf(g0, r.id), l.backends, r.backends, owner);
    } else if FirstMatch(l, created).Some? {
      var c := FirstMatch(l, created).value;
      var j :| 0 <= j < n && MadeFor(c, wanted[j], applied[j], r0);
      SharedCreation(l, wanted[j], r0, c);
      assert Agree(wanted[j], l, r0, g0, owner);
      FilledIsClosed(l.backends, wanted[j].backends);
    }
  }

  /** Two wanted groups that end in one new group bear its name. */
  lemma SharedCreation(l: VServerGroup, l': VServerGroup, r0: seq<VServerGroup>, c: VServerGroup)
    requires Matches(l, c) && c.name == l'.name && l'.id == 0 && FirstMatch(l, r0).None?
    ensures l.id == 0 ==> !Apart(l', l, r0)
  {
  }

  /** One more group has its outcome; the others stay, or share it. */
  lemma ReachedStep(wanted: seq<VServerGroup>, applied: seq<VServerGroup>, n: nat, tied: VServerGroup,
                    r0: seq<VServerGroup>,
                    g0: map<nat, VGroup>, g: map<nat, VGroup>, g': map<nat, VGroup>, owner: Owner)
    requires Reached(wanted, applied, n, r0, g0, g, owner) && n < |wanted| && UntouchedBut(g, g', tied.id)
    requires FoundOrNew(wanted[n], tied.id, r0, g0)
    requires forall j :: 0 <= j < n && applied[j].id == tied.id ==>
              Outcome(wanted[j], r0, g0, owner) == Outcome(wanted[n], r0, g0, owner)
    requires tied.id in g' && BackendsOf(g', tied.id) == Outcome(wanted[n], r0, g0, owner)
    ensures Reached(wanted, applied[n := tied], n + 1, r0, g0, g', owner)
  {
  }

  lemma MadeStep(created: seq<VServerGroup>, appended: seq<VServerGroup>, wanted: seq<VServerGroup>,
                 applied: seq<VServerGroup>, n: nat,
                 tied: VServerGroup, r0: seq<VServerGroup>)
    requires Made(created, wanted, applied, n, r0) && n < |wanted|
    requires appended != [] ==> appended == [tied] && MadeFor(tied, wanted[n], tied, r0)
    ensures Made(created + appended, wanted, applied[n := tied], n + 1, r0)
  {
    var applied' := applied[n := tied];
    forall c | c in created + appended
      ensures exists j :: 0 <= j < n + 1 && MadeFor(c, wanted[j], applied'[j], r0)
    {
      if c in created {
        var j :| 0 <= j < n && MadeFor(c, wanted[j], applied[j], r0);
        assert MadeFor(c, wanted[j], applied'[j], r0);
      } else {
        assert MadeFor(c, wanted[n], applied'[n], r0);
      }
    }
  }

  lemma OutcomesStep(wanted: seq<VServerGroup>, applied: seq<VServerGroup>, n: nat, tied: VServerGroup,
                     r0: seq<VServerGroup>,
                     created: seq<VServerGroup>, appended: seq<VServerGroup>,
                     g0: map<nat, VGroup>, g: map<nat, VGroup>, g': map<nat, VGroup>, owner: Owner)
    requires Clear(wanted, r0, g0, owner) && Outcomes(wanted, applied, n, r0, created, g0, g, owner)
             && n < |wanted|
    requires TiesGroup(wanted[n], r0 + created, g, tied, appended, false) && UntouchedBut(g, g', tied.id)
             && g.Keys <= g'.Keys
    requires tied.id in g' && BackendsOf(g', tied.id) == Outcome(wanted[n], r0, g0, owner)
    ensures Outcomes(wanted, applied[n := tied], n + 1, r0, created + appended, g0, g', owner)
  {
    NextIsReady(wanted, applied, n, r0, created, g0, g, owner);
    TiedWhere(wanted, applied, n, tied, r0, created, appended, g0, g, owner);
    ReachedStep(wanted, applied, n, tied, r0, g0, g, g', owner);
    MadeStep(created, appended, wanted, applied, n, tied, r0);
    forall j | n < j < |wanted|
      ensures Ready(wanted[j], r0, g0, g', owner)
    {
      assert Apart(wanted[n], wanted[j], r0) || Agree(wanted[n], wanted[j], r0, g0, owner);
    }
  }

  /** Which group a wanted one is tied to, against the earlier ones. */
  lemma TiedWhere(wanted: seq<VServerGroup>, applied: seq<VServerGroup>, n: nat, tied: VServerGroup,
                  r0: seq<VServerGroup>,
                  created: seq<VServerGroup>, appended: seq<VServerGroup>,
                  g0: map<nat, VGroup>, g: map<nat, VGroup>, owner: Owner)
    requires Clear(wanted, r0, g0, owner) && Outcomes(wanted, applied, n, r0, created, g0, g, owner)
             && n < |wanted|
    requires TiesGroup(wanted[n], r0 + created, g, tied, appended, false)
    ensures FoundOrNew(wanted[n], tied.id, r0, g0)
    ensures appended != [] ==> appended == [tied] && MadeFor(tied, wanted[n], tied, r0)
    ensures forall j :: 0 <= j < n && applied[j].id == tied.id ==>
              Outcome(wanted[j], r0, g0, owner) == Outcome(wanted[n], r0, g0, owner)
  {
    var l := wanted[n];
    FirstMatchAppend(l, r0, created);
    NextIsReady(wanted, applied, n, r0, created, g0, g, owner);
    if l.id != 0 { var r :| r in r0 && r.id == l.id; assert Matches(l, r); }
    if FirstMatch(l, r0).None? && FirstMatch(l, created).Some? {
      var c := FirstMatch(l, created).value;
      var i :| 0 <= i < n && MadeFor(c, wanted[i], applied[i], r0);
    }
    forall j | 0 <= j < n && applied[j].id == tied.id
      ensures Outcome(wanted[j], r0, g0, owner) == Outcome(l, r0, g0, owner)
    {
      assert Apart(wanted[j], l, r0) || Agree(wanted[j], l, r0, g0, owner);
    }
  }

  /** What is known of the first n wanted groups when no error was met. */
  ghost predicate Orderly(wanted: seq<VServerGroup>, applied: seq<VServerGroup>, n: nat, r0: seq<VServerGroup>,
                          created: seq<VServerGroup>, g0: map<nat, VGroup>, g: map<nat, VGroup>,
                          names0: seq<string>, names: seq<string>) {
    && AllPlaced(wanted, applied, n, g) && InUse(created, applied, n) && Accounted(created, g0, g, names0, names)
    && (ReusedExist(wanted, r0) ==> AllResolved(wanted, applied, n, r0 + created) && FreshNames(r0, created))
  }

  /** The created groups are those that there are, and were asked for, besides the old ones. */
  ghost predicate Accounted(created: seq<VServerGroup>, g0: map<nat, VGroup>, g: map<nat, VGroup>,
                            names0: seq<string>, names: seq<string>) {
    g.Keys == g0.Keys + IdSet(created) && names == names0 + Names(created)
  }

  lemma AccountedStep(created: seq<VServerGroup>, appended: seq<VServerGroup>, g0: map<nat, VGroup>,
                      g: map<nat, VGroup>,
                      g': map<nat, VGroup>, names0: seq<string>, names: seq<string>)
    requires Accounted(created, g0, g, names0, names) && g'.Keys == g.Keys + IdSet(appended)
    ensures Accounted(created + appended, g0, g', names0, names + Names(appended))
  {
    assert Names(created + appended) == Names(created) + Names(appended);
    assert IdSet(created + appended) == IdSet(created) + IdSet(appended);
  }

  /** The created groups are used by the first n wanted ones. */
  ghost predicate InUse(created: seq<VServerGroup>, applied: seq<VServerGroup>, n: nat) {
    n <= |applied| && forall c :: c in created ==> exists j :: 0 <= j < n && applied[j].id == c.id
  }

  lemma InUseStep(created: seq<VServerGroup>, applied: seq<VServerGroup>, n: nat, tied: VServerGroup,
                  appended: seq<VServerGroup>)
    requires InUse(created, applied, n) && n < |applied| && (appended == [] || appended == [tied])
    ensures InUse(created + appended, applied[n := tied], n + 1)
  {
    var applied' := applied[n := tied];
    forall c | c in created + appended
      ensures exists j :: 0 <= j < n + 1 && applied'[j].id == c.id
    {
      if c in created {
        var j :| 0 <= j < n && applied[j].id == c.id;
        assert applied'[j].id == c.id;
      } else {
        assert applied'[n].id == c.id;
      }
    }
  }

  lemma OrderlyStep(wanted: seq<VServerGroup>, applied: seq<VServerGroup>, n: nat, tied: VServerGroup,
                    r0: seq<VServerGroup>, created: seq<VServerGroup>, appended: seq<VServerGroup>,
                    g0: map<nat, VGroup>, g: map<nat, VGroup>, g': map<nat, VGroup>,
                    names0: seq<string>, names: seq<string>)
    requires Orderly(wanted, applied, n, r0, created, g0, g, names0, names) && n < |wanted| == |applied|
             && applied[n] == wanted[n]
    requires TiesGroup(wanted[n], r0 + created, g, tied, appended, false) && NamesKept(g, g')
    requires PlacedIn(wanted[n], tied, g') && g'.Keys == g.Keys + IdSet(appended)
    ensures Orderly(wanted, applied[n := tied], n + 1, r0, created + appended, g0, g', names0, names + Names(appended))
  {
    if ReusedExist(wanted, r0) { AppliedOne(wanted, applied, n, tied, r0, created, appended); }
    InUseStep(created, applied, n, tied, appended);
    PlacedStep(wanted, applied, n, tied, g, g');
    AccountedStep(created, appended, g0, g, g', names0, names);
  }

  lemma PlacedStep(wanted: seq<VServerGroup>, applied: seq<VServerGroup>, n: nat, tied: VServerGroup,
                   g: map<nat, VGroup>, g': map<nat, VGroup>)
    requires AllPlaced(wanted, applied, n, g) && n < |wanted| && NamesKept(g, g') && PlacedIn(wanted[n], tied, g')
    ensures AllPlaced(wanted, applied[n := tied], n + 1, g')
  {
    forall j | 0 <= j < n
      ensures PlacedIn(wanted[j], applied[j], g')
    {
      assert PlacedIn(wanted[j], applied[j], g);
    }
  }

  /** One more wanted group, in whichever case. */
  lemma EachStep(wanted: seq<VServerGroup>, applied: seq<VServerGroup>, n: nat, tied: VServerGroup,
                 r0: seq<VServerGroup>, created: seq<VServerGroup>, appended: seq<VServerGroup>,
                 g0: map<nat, VGroup>, g: map<nat, VGroup>, g': map<nat, VGroup>,
                 owner: Owner, names0: seq<string>, names: seq<string>)
    requires n < |wanted| == |applied| && applied[n] == wanted[n]
    requires TiesGroup(wanted[n], r0 + created, g, tied, appended, false) && NamesKept(g, g')
    requires PlacedIn(wanted[n], tied, g') && g'.Keys == g.Keys + IdSet(appended)
    requires UntouchedBut(g, g', tied.id)
    requires Orderly(wanted, applied, n, r0, created, g0, g, names0, names)
    requires Clear(wanted, r0, g0, owner) ==> Outcomes(wanted, applied, n, r0, created, g0, g, owner)
    requires Attainable(wanted[n], r0 + created, g, owner) ==>
               BackendsOf(g', tied.id) == Outcome(wanted[n], r0 + created, g, owner)
    requires FirstMatch(wanted[n], r0 + created).Some?
             && AlreadyThere(wanted[n], FirstMatch(wanted[n], r0 + created).value, g) ==>
               BackendsOf(g', tied.id) == BackendsOf(g, tied.id)
    ensures Orderly(wanted, applied[n := tied], n + 1, r0, created + appended, g0, g', names0, names + Names(appended))
    ensures Clear(wanted, r0, g0, owner) ==>
              Outcomes(wanted, applied[n := tied], n + 1, r0, created + appended, g0, g', owner)
  {
    if Clear(wanted, r0, g0, owner) {
      NextIsReady(wanted, applied, n, r0, created, g0, g, owner);
      OutcomesStep(wanted, applied, n, tied, r0, created, appended, g0, g, g', owner);
    }
    OrderlyStep(wanted, applied, n, tied, r0, created, appended, g0, g, g', names0, names);
  }

  /** What is known after n wanted groups: names are those of all groups created, names0 of those
      created before, and smooth says that nothing failed or stood in the way. */
  ghost predicate EachSoFar(wanted: seq<VServerGroup>, applied: seq<VServerGroup>, n: nat, r0: seq<VServerGroup>,
                            created: seq<VServerGroup>, g0: map<nat, VGroup>, g: map<nat, VGroup>,
                            owner: Owner, names0: seq<string>, names: seq<string>, smooth: bool, errs: nat) {
    && n <= |wanted| == |applied| && (forall j :: n <= j < |wanted| ==> applied[j] == wanted[j])
    && (errs == 0 ==>
          && Orderly(wanted, applied, n, r0, created, g0, g, names0, names)
          && (Clear(wanted, r0, g0, owner) ==> Outcomes(wanted, applied, n, r0, created, g0, g, owner)))
    && (smooth ==> errs == 0)
  }

  /** The next wanted group. */
  method ApplyNext(cloud: SlbCloud, wanted: seq<VServerGroup>, applied: seq<VServerGroup>, i: nat,
                   r0: seq<VServerGroup>,
                   created: seq<VServerGroup>, errs: nat, batchSize: int, ghost owner: Owner,
                   ghost before: map<nat, VGroup>,
                   ghost g0: map<nat, VGroup>, ghost names0: seq<string>, ghost smooth: bool)
    returns (applied': seq<VServerGroup>, created': seq<VServerGroup>, errs': nat)
    requires SafeState(cloud, before, owner, r0 + created) && i < |wanted|
    requires smooth ==>
               NoFaults(cloud) && Clear(wanted, r0, g0, owner) && AllFit(wanted, r0, g0, owner, cloud.quota)
    requires EachSoFar(wanted, applied, i, r0, created, g0, cloud.groups, owner,
                       names0, cloud.createdNames, smooth, errs)
    modifies cloud
    ensures SafeState(cloud, before, owner, r0 + created')
    ensures EachSoFar(wanted, applied', i + 1, r0, created', g0, cloud.groups, owner,
                      names0, cloud.createdNames, smooth, errs')
  {
    ghost var g, names := cloud.groups, cloud.createdNames;
    if smooth { NextIsManageable(wanted, applied, i, r0, created, g0, g, owner, cloud.quota); }
    var tied, appended, err := ApplyGroup(cloud, wanted[i], r0 + created, batchSize, owner, before);
    if errs == 0 && !err {
      EachStep(wanted, applied, i, tied, r0, created, appended, g0, g, cloud.groups, owner, names0, names);
    }
    assert r0 + (created + appended) == r0 + created + appended;
    applied', created', errs' := applied[i := tied], created + appended, if err then errs + 1 else errs;
  }

  lemma NextIsManageable(wanted: seq<VServerGroup>, applied: seq<VServerGroup>, n: nat, r0: seq<VServerGroup>,
                         created: seq<VServerGroup>, g0: map<nat, VGroup>, g: map<nat, VGroup>, owner: Owner,
                         quota: nat)
    requires Clear(wanted, r0, g0, owner) && Outcomes(wanted, applied, n, r0, created, g0, g, owner)
             && n < |wanted| && AllFit(wanted, r0, g0, owner, quota)
    ensures Manageable(wanted[n], r0 + created, g, owner, quota)
  {
    NextIsReady(wanted, applied, n, r0, created, g0, g, owner);
  }

  /** All wanted groups in order. */
  method ApplyEach(cloud: SlbCloud, wanted: seq<VServerGroup>, r0: seq<VServerGroup>, batchSize: int,
                   ghost owner: Owner, ghost before: map<nat, VGroup>)
    returns (applied: seq<VServerGroup>, created: seq<VServerGroup>, errs: nat)
    requires SafeState(cloud, before, owner, r0)
    modifies cloud
    ensures SafeState(cloud, before, owner, r0 + created)
    ensures EachSoFar(wanted, applied, |wanted|, r0, created, old(cloud.groups), cloud.groups, owner,
                      old(cloud.createdNames), cloud.createdNames,
                      NoFaults(cloud) && Clear(wanted, r0, old(cloud.groups), owner)
                      && AllFit(wanted, r0, old(cloud.groups), owner, cloud.quota), errs)
  {
    applied, created, errs := wanted, [], 0;
    ghost var g0, names0 := cloud.groups, cloud.createdNames;
    ghost var smooth :=
      NoFaults(cloud) && Clear(wanted, r0, g0, owner) && AllFit(wanted, r0, g0, owner, cloud.quota);
    NothingYet(wanted, r0, g0, owner, names0, smooth);
    assert r0 + [] == r0;
    for i := 0 to |wanted|
      invariant SafeState(cloud, before, owner, r0 + created)
      invariant EachSoFar(wanted, applied, i, r0, created, g0, cloud.groups, owner,
                          names0, cloud.createdNames, smooth, errs)
    {
      applied, created, errs :=
        ApplyNext(cloud, wanted, applied, i, r0, created, errs, batchSize, owner, before, g0, names0, smooth);
    }
  }

  lemma NothingYet(wanted: seq<VServerGroup>, r0: seq<VServerGroup>, g0: map<nat, VGroup>, owner: Owner,
                   names0: seq<string>, smooth: bool)
    ensures EachSoFar(wanted, wanted, 0, r0, [], g0, g0, owner, names0, names0, smooth, 0)
  {
  }

  /** Every wanted group has its outcome. */
  ghost predicate AllReached(wanted: seq<VServerGroup>, applied: seq<VServerGroup>, view: seq<VServerGroup>,
                             before: map<nat, VGroup>, after: map<nat, VGroup>, owner: Owner) {
    && |applied| == |wanted|
    && forall i :: 0 <= i < |wanted| ==>
         applied[i].id in after && BackendsOf(after, applied[i].id) == Outcome(wanted[i], view, before, owner)
  }

  /** The agreement is needed: wanted groups that share a group cannot all have their outcomes
      unless these are the same. */
  lemma ReachedMeansAgreement(wanted: seq<VServerGroup>, applied: seq<VServerGroup>, r0: seq<VServerGroup>,
                              remote: seq<VServerGroup>,
                              g0: map<nat, VGroup>, g: map<nat, VGroup>, owner: Owner)
    requires ReusedExist(wanted, r0) && r0 <= remote && AllResolved(wanted, applied, |wanted|, remote)
    requires AllReached(wanted, applied, r0, g0, g, owner)
    ensures forall i, j :: 0 <= i < j < |wanted| ==>
              Apart(wanted[i], wanted[j], r0) || Agree(wanted[i], wanted[j], r0, g0, owner)
  {
    var created := remote[|r0|..];
    assert remote == r0 + created;
    forall i, j | 0 <= i < j < |wanted| && !Apart(wanted[i], wanted[j], r0)
      ensures applied[i].id == applied[j].id
    {
      assert Resolved(wanted[i], applied[i], remote) && Resolved(wanted[j], applied[j], remote);
      FirstMatchAppend(wanted[i], r0, created);
      FirstMatchAppend(wanted[j], r0, created);
      if wanted[i].id == 0 && wanted[j].id == 0 && wanted[i].name == wanted[j].name {
        MatchByName(wanted[i], remote);
        MatchByName(wanted[j], remote);
      }
    }
  }

  /** Applying all wanted groups. Whatever fails, no user backend is removed. On success
      each wanted group is tied to the group of its own id or name, and besides the groups
      that were there are exactly the created ones; when the reused ids exist, at most one
      group is created for each name, and none for a name that was there, and unless keys or
      rivals stand in the way every group holds the user's backends and the wanted ones. When
      besides nothing fails and all fit the quota, there is no error. */
  method ApplyVGroups(cloud: SlbCloud, local: LbModel, remote: LbModel, batchSize: int, ghost owner: Owner,
                      ghost before: map<nat, VGroup>) returns (errs: nat)
    requires local != remote
    requires SafeState(cloud, before, owner, remote.groups)
    modifies cloud, local`groups, remote`groups
    ensures SafeState(cloud, before, owner, remote.groups)
    ensures |local.groups| == |old(local.groups)| && old(remote.groups) <= remote.groups
    ensures errs == 0 ==>
              && AllPlaced(old(local.groups), local.groups, |local.groups|, cloud.groups)
              && InUse(remote.groups[|old(remote.groups)|..], local.groups, |local.groups|)
              && cloud.groups.Keys == old(cloud.groups).Keys + IdSet(remote.groups[|old(remote.groups)|..])
    ensures errs == 0 && ReusedExist(old(local.groups), old(remote.groups)) ==>
              && AllResolved(old(local.groups), local.groups, |local.groups|, remote.groups)
              && FreshNames(old(remote.groups), remote.groups[|old(remote.groups)|..])
              && cloud.createdNames == old(cloud.createdNames) + Names(remote.groups[|old(remote.groups)|..])
    ensures NoFaults(cloud) && Clear(old(local.groups), old(remote.groups), old(cloud.groups), owner)
            && AllFit(old(local.groups), old(remote.groups), old(cloud.groups), owner, cloud.quota) ==>
              errs == 0
    ensures errs == 0 && Clear(old(local.groups), old(remote.groups), old(cloud.groups), owner) ==>
              AllReached(old(local.groups), local.groups, old(remote.groups), old(cloud.groups), cloud.groups, owner)
  {
    ghost var r0 := remote.groups;
    var applied, created;
    applied, created, errs := ApplyEach(cloud, local.groups, remote.groups, batchSize, owner, before);
    local.groups := applied;
    remote.groups := remote.groups + created;
    assert remote.groups[|r0|..] == created;
  }

  lemma ReusedIsFound(local0: seq<VServerGroup>, j: nat, r0: seq<VServerGroup>, created: seq<VServerGroup>)
    requires j < |local0| && local0[j].id != 0 && ReusedExist(local0, r0)
    ensures FirstMatch(local0[j], r0 + created).Some?
  {
    var r :| r in r0 && r.id == local0[j].id;
    assert r in r0 + created && Matches(local0[j], r);
  }

  /** One step of applying the groups keeps what is known of the earlier ones. */
  lemma AppliedOne(local0: seq<VServerGroup>, local: seq<VServerGroup>, i: nat, tied: VServerGroup,
                   r0: seq<VServerGroup>, created: seq<VServerGroup>, appended: seq<VServerGroup>)
    requires i < |local| == |local0| && local[i] == local0[i] && ReusedExist(local0, r0)
    requires TiedBy(local0[i], r0 + created, tied, appended)
    requires AllResolved(local0, local, i, r0 + created) && FreshNames(r0, created)
    ensures AllResolved(local0, local[i := tied], i + 1, r0 + (created + appended))
            && FreshNames(r0, created + appended)
  {
    var remote := r0 + created;
    assert r0 + (created + appended) == remote + appended;
    forall j | 0 <= j < i
      ensures Resolved(local0[j], local[j], remote + appended)
    {
      if local0[j].id != 0 { ReusedIsFound(local0, j, r0, created); }
      ResolvedAppend(local0[j], local[j], remote, appended);
    }
    if local0[i].id != 0 { ReusedIsFound(local0, i, r0, created); }
    ResolvedNow(local0[i], tied, remote, appended);
    NamesStayFresh(local0[i], tied, r0, created, appended);
  }

  /** A wanted group tied to its first match, or to one that is appended. */
  ghost predicate TiedBy(l: VServerGroup, remote: seq<VServerGroup>, tied: VServerGroup, appended: seq<VServerGroup>) {
    && tied == l.(id := tied.id)
    && if FirstMatch(l, remote).Some? then tied.id == FirstMatch(l, remote).value.id && appended == []
       else appended == [tied]
  }

  lemma ResolvedNow(l: VServerGroup, tied: VServerGroup, remote: seq<VServerGroup>, appended: seq<VServerGroup>)
    requires TiedBy(l, remote, tied, appended) && (l.id != 0 ==> FirstMatch(l, remote).Some?)
    ensures Resolved(l, tied, remote + appended)
  {
    FirstMatchAppend(l, remote, appended);
  }

  lemma NamesStayFresh(l: VServerGroup, tied: VServerGroup, r0: seq<VServerGroup>, created: seq<VServerGroup>,
                       appended: seq<VServerGroup>)
    requires FreshNames(r0, created) && tied.name == l.name
    requires appended == [] || (appended == [tied] && l.id == 0 && FirstMatch(l, r0 + created).None?)
    ensures FreshNames(r0, created + appended)
  {
    if appended == [] {
      assert created + appended == created;
    } else {
      assert forall r :: r in r0 || r in created ==> r in r0 + created;
      assert forall i :: 0 <= i < |created| ==> created[i] in created;
    }
  }

  // ---- tying listeners to groups --------------------------------------------------------------

  /** The first group of a name. */
  function FirstNamed(name: string, remote: seq<VServerGroup>): Option<VServerGroup> {
    if remote == [] then None
    else if remote[0].name == name then Some(remote[0])
    else FirstNamed(name, remote[1..])
  }

  lemma {:induction false} MatchByName(l: VServerGroup, remote: seq<VServerGroup>)
    requires l.id == 0
    ensures FirstMatch(l, remote) == FirstNamed(l.name, remote)
  {
    if remote != [] { MatchByName(l, remote[1..]); }
  }

  /** The group id a listener is tied to; 0 when there is none. */
  function TiedId(lis: Listener, remote: seq<VServerGroup>): nat {
    if lis.vGroupId != 0 then lis.vGroupId
    else match FirstNamed(lis.vGroupName, remote) case Some(r) => r.id case None => 0
  }

  method FindVServerGroup(remote: seq<VServerGroup>, name: string) returns (m: Option<VServerGroup>)
    ensures m == FirstNamed(name, remote)
  {
    for i := 0 to |remote|
      invariant FirstNamed(name, remote) == FirstNamed(name, remote[i..])
    {
      assert remote[i..][1..] == remote[i + 1..];
      if remote[i].name == name { return Some(remote[i]); }
    }
    return None;
  }

  /** Tying each listener to its group, in place; a listener without a group is an error. */
  method AssociateListeners(model: LbModel, remote: seq<VServerGroup>) returns (ok: bool)
    modifies model`listeners
    ensures |model.listeners| == |old(model.listeners)|
    ensures ok ==> forall i :: 0 <= i < |model.listeners| ==>
              model.listeners[i] == old(model.listeners)[i].(vGroupId := TiedId(old(model.listeners)[i], remote))
    ensures ok <==> forall lis :: lis in old(model.listeners) && lis.vGroupId == 0 ==>
              FirstNamed(lis.vGroupName, remote).Some?
  {
    for i := 0 to |model.listeners|
      invariant |model.listeners| == |old(model.listeners)|
      invariant forall j :: i <= j < |model.listeners| ==> model.listeners[j] == old(model.listeners)[j]
      invariant forall j :: 0 <= j < i ==>
                  model.listeners[j] == old(model.listeners)[j].(vGroupId := TiedId(old(model.listeners)[j], remote))
      invariant forall j :: 0 <= j < i && old(model.listeners)[j].vGroupId == 0 ==>
                  FirstNamed(old(model.listeners)[j].vGroupName, remote).Some?
    {
      var lis := model.listeners[i];
      if lis.vGroupId != 0 { continue; }
      var found := FindVServerGroup(remote, lis.vGroupName);
      if found.None? { return false; }
      model.listeners := model.listeners[i := lis.(vGroupId := found.value.id)];
    }
    return true;
  }

  /** Listener and wanted group of one service port: same group name, same reused id. */
  ghost predicate SamePorts(listeners: seq<Listener>, groups: seq<VServerGroup>) {
    && |listeners| == |groups|
    && forall i :: 0 <= i < |groups| ==>
         listeners[i].vGroupName == groups[i].name && listeners[i].vGroupId == groups[i].id
  }

  /** After the groups were applied, every listener is tied to the group built for its own
      port. */
  lemma TiedToOwnGroup(listeners: seq<Listener>, wanted: seq<VServerGroup>, applied: seq<VServerGroup>,
                       remote0: seq<VServerGroup>,
                       remote: seq<VServerGroup>)
    requires SamePorts(listeners, wanted) && remote0 <= remote && ReusedExist(wanted, remote0)
    requires AllResolved(wanted, applied, |wanted|, remote)
    ensures forall i :: 0 <= i < |wanted| ==> TiedId(listeners[i], remote) == applied[i].id
    ensures forall lis :: lis in listeners && lis.vGroupId == 0 ==> FirstNamed(lis.vGroupName, remote).Some?
  {
    forall i | 0 <= i < |wanted|
      ensures TiedId(listeners[i], remote) == applied[i].id
      ensures listeners[i].vGroupId == 0 ==> FirstNamed(listeners[i].vGroupName, remote).Some?
    {
      if wanted[i].id != 0 {
        ReusedIsFound(wanted, i, remote0, remote[|remote0|..]);
        assert remote0 + remote[|remote0|..] == remote;
      } else {
        MatchByName(wanted[i], remote);
      }
    }
  }

  // ---- cleaning up --------------------------------------------------------------------------------

  predicate HasId(groups: seq<VServerGroup>, id: nat) { exists l :: l in groups && l.id == id }

  function NotUsers(): Backend -> bool { (b: Backend) => !b.isUserManaged }

  method DeleteGroup(cloud: SlbCloud, id: nat) returns (ok: bool)
    modifies cloud`groups, cloud`calls
    ensures cloud.groups == if ok then old(cloud.groups) - {id} else old(cloud.groups)
    ensures cloud.calls == old(cloud.calls) + 1 && (ok <==> !cloud.fault(old(cloud.calls)) && id in old(cloud.groups))
  {
    cloud.calls := cloud.calls + 1;
    if cloud.fault(cloud.calls - 1) || id !in cloud.groups { return false; }
    cloud.groups := cloud.groups - {id};
    return true;
  }

  method OwnBackends(backends: seq<Backend>) returns (del: seq<Backend>)
    ensures del == Filter(NotUsers(), backends)
  {
    del := [];
    for i := 0 to |backends|
      invariant del == Filter(NotUsers(), backends[..i])
    {
      FilterStep(NotUsers(), backends, i);
      if !backends[i].isUserManaged { del := del + [backends[i]]; }
    }
    assert backends[..|backends|] == backends;
  }

  /** Nothing was added to any group. */
  ghost predicate Shrinks(before: map<nat, VGroup>, after: map<nat, VGroup>) {
    forall id :: BackendsOf(after, id).Keys <= BackendsOf(before, id).Keys
  }

  /** The backends of a view that the service manages are not in the group. */
  ghost predicate OwnGone(vg: VServerGroup, groups: map<nat, VGroup>) {
    forall b :: b in vg.backends && !b.isUserManaged ==> KeyOf(b) !in BackendsOf(groups, vg.id)
  }

  /** Removing the service's backends from a group of someone else. */
  method RemoveOwnBackends(cloud: SlbCloud, vg: VServerGroup, batchSize: int, ghost owner: Owner,
                           ghost before: map<nat, VGroup>) returns (err: bool)
    requires UserBackendsKept(before, cloud.groups, owner) && ViewSafe(vg, before, owner)
    modifies cloud`groups, cloud`calls
    ensures UserBackendsKept(before, cloud.groups, owner)
    ensures OnlyGroup(old(cloud.groups), cloud.groups, vg.id)
    ensures Shrinks(old(cloud.groups), cloud.groups) && (!err ==> OwnGone(vg, cloud.groups))
    ensures old(Smooth(cloud, vg.id)) ==> !err
  {
    err := false;
    var del := OwnBackends(vg.backends);
    assert forall b :: b in vg.backends && !b.isUserManaged ==> b in del;
    if |del| > 0 {
      ghost var mid := cloud.groups;
      var e := BatchRemove(cloud, vg.id, del, batchSize);
      RemoveKeys(BackendsOf(mid, vg.id), del);
      DroppingManagedIsSafe(before, mid, cloud.groups, vg, [], del, owner);
      err := e != [];
    }
  }

  /** One group that no wanted group uses: the service's own is deleted, of another one only
      the service's backends are removed. */
  method CleanupGroup(cloud: SlbCloud, vg: VServerGroup, owner: Owner, batchSize: int,
                      ghost before: map<nat, VGroup>) returns (err: bool)
    requires UserBackendsKept(before, cloud.groups, owner) && ViewSafe(vg, before, owner)
    modifies cloud`groups, cloud`calls
    ensures UserBackendsKept(before, cloud.groups, owner)
    ensures forall id :: id in old(cloud.groups) && id != vg.id ==>
              id in cloud.groups && cloud.groups[id] == old(cloud.groups)[id]
    ensures cloud.groups.Keys <= old(cloud.groups).Keys
    ensures !err && IsManaged(vg, owner) ==> vg.id !in cloud.groups
    ensures !IsManaged(vg, owner) ==> OnlyGroup(old(cloud.groups), cloud.groups, vg.id)
    ensures Shrinks(old(cloud.groups), cloud.groups) && (!err ==> OwnGone(vg, cloud.groups))
    ensures old(Smooth(cloud, vg.id)) ==> !err
  {
    if !IsManaged(vg, owner) {
      err := RemoveOwnBackends(cloud, vg, batchSize, owner, before);
    } else {
      var ok := DeleteGroup(cloud, vg.id);
      err := !ok;
    }
  }

  /** From the i-th on, the views that no wanted group uses are of different groups that exist. */
  ghost predicate UnusedOnce(remote: seq<VServerGroup>, local: seq<VServerGroup>, i: nat, groups: map<nat, VGroup>) {
    && (forall j :: i <= j < |remote| && !HasId(local, remote[j].id) ==> remote[j].id in groups)
    && (forall j, k :: i <= j < k < |remote| && !HasId(local, remote[j].id) ==> remote[j].id != remote[k].id)
  }

  /** A group that the service may delete: its own by some view, and not used. */
  ghost predicate Deletable(remote: seq<VServerGroup>, local: seq<VServerGroup>, owner: Owner, id: nat) {
    !HasId(local, id) && exists r :: r in remote && r.id == id && IsManaged(r, owner)
  }

  /** Cleaning up. Whatever fails, no user backend is removed and no group that a wanted
      group refers to is touched; on success the service's unused groups are gone, and so are
      its backends in the other unused ones. */
  method Cleanup(cloud: SlbCloud, local: seq<VServerGroup>, remote: seq<VServerGroup>, owner: Owner, batchSize: int,
                 ghost before: map<nat, VGroup>) returns (err: bool)
    requires UserBackendsKept(before, cloud.groups, owner)
    requires forall r :: r in remote ==> ViewSafe(r, before, owner)
    modifies cloud`groups, cloud`calls
    ensures UserBackendsKept(before, cloud.groups, owner)
    ensures forall id :: id in old(cloud.groups) && HasId(local, id) ==>
              id in cloud.groups && cloud.groups[id] == old(cloud.groups)[id]
    ensures !err ==> forall r :: r in remote && IsManaged(r, owner) && !HasId(local, r.id) ==> r.id !in cloud.groups
    ensures !err ==> forall r :: r in remote && !HasId(local, r.id) ==> OwnGone(r, cloud.groups)
    ensures cloud.groups.Keys <= old(cloud.groups).Keys
    ensures forall id :: id in old(cloud.groups) && !Deletable(remote, local, owner, id) ==> id in cloud.groups
    ensures NoFaults(cloud) && UnusedOnce(remote, local, 0, old(cloud.groups)) ==> !err
  {
    for i := 0 to |remote|
      invariant UserBackendsKept(before, cloud.groups, owner)
      invariant cloud.groups.Keys <= old(cloud.groups).Keys
      invariant forall id :: id in old(cloud.groups) && HasId(local, id) ==>
                id in cloud.groups && cloud.groups[id] == old(cloud.groups)[id]
      invariant forall r :: r in remote[..i] && IsManaged(r, owner) && !HasId(local, r.id) ==> r.id !in cloud.groups
      invariant forall r :: r in remote[..i] && !HasId(local, r.id) ==> OwnGone(r, cloud.groups)
      invariant forall id :: id in old(cloud.groups) && !Deletable(remote, local, owner, id) ==> id in cloud.groups
      invariant UnusedOnce(remote, local, 0, old(cloud.groups)) ==> UnusedOnce(remote, local, i, cloud.groups)
    {
      var vg := remote[i];
      assert remote[..i + 1] == remote[..i] + [vg];
      if HasId(local, vg.id) { continue; }
      err := CleanupGroup(cloud, vg, owner, batchSize, before);
      if err { return; }
    }
    assert remote[..|remote|] == remote;
    return false;
  }

  lemma FaithfulAreSafe(cloud: SlbCloud, vgs: seq<VServerGroup>, owner: Owner, reused: seq<nat>)
    requires cloud.Valid() && forall vg :: vg in vgs ==> Faithful(vg, cloud.groups, owner, reused)
    ensures SafeState(cloud, cloud.groups, owner, vgs)
  {
    forall r | r in vgs
      ensures ViewSafe(r, cloud.groups, owner)
    {
      FaithfulIsSafe(r, cloud.groups, owner, reused);
    }
  }

  // ---- one apply run ---------------------------------------------------------------------------------

  /** Each listener carries the id of the group applied for its own port: the reused one, or the
      one of its name. */
  ghost predicate EachTied(listeners: seq<Listener>, applied: seq<VServerGroup>, wanted: seq<VServerGroup>,
                           groups: map<nat, VGroup>) {
    && |listeners| == |applied| == |wanted|
    && forall i :: 0 <= i < |wanted| ==>
         && listeners[i].vGroupId == applied[i].id && applied[i].id in groups
         && (if wanted[i].id != 0 then applied[i].id == wanted[i].id else groups[applied[i].id].name == wanted[i].name)
  }

  lemma ResolvedIsPlaced(listeners: seq<Listener>, applied: seq<VServerGroup>, wanted: seq<VServerGroup>,
                         remote: seq<VServerGroup>,
                         groups: map<nat, VGroup>)
    requires |listeners| == |applied| == |wanted| && AllPlaced(wanted, applied, |wanted|, groups)
    requires AllResolved(wanted, applied, |wanted|, remote)
    requires forall i :: 0 <= i < |wanted| ==> listeners[i].vGroupId == applied[i].id
    requires forall l :: l in wanted && l.id != 0 ==> FirstMatch(l, remote).Some?
    ensures EachTied(listeners, applied, wanted, groups)
  {
    forall i | 0 <= i < |wanted|
      ensures if wanted[i].id != 0 then applied[i].id == wanted[i].id else groups[applied[i].id].name == wanted[i].name
    {
      assert Resolved(wanted[i], applied[i], remote) && PlacedIn(wanted[i], applied[i], groups);
    }
  }

  /** A group the service owns whole: its name, and every backend in it. */
  ghost predicate OwnedWhole(g: VGroup, owner: Owner) {
    ManagedBy(g.name, owner) && forall k :: k in g.backends ==> ManagedBy(g.backends[k].description, owner)
  }

  /** What becomes of a group that no wanted one uses: gone if it is the service's; else it
      stays, and if it bears the service's name or is reused, without the service's backends. */
  ghost predicate LeftBehind(id: nat, before: map<nat, VGroup>, after: map<nat, VGroup>, owner: Owner, reused: seq<nat>)
    requires id in before
  {
    && (id in after <==> !OwnedWhole(before[id], owner))
    && (ManagedBy(before[id].name, owner) || id in reused ==>
          forall k :: k in before[id].backends && ManagedBy(before[id].backends[k].description, owner) ==>
            k !in BackendsOf(after, id))
  }

  ghost predicate CleanedUp(before: map<nat, VGroup>, after: map<nat, VGroup>, applied: seq<VServerGroup>, owner: Owner,
                            reused: seq<nat>) {
    && (forall id :: id in after ==> id in before || HasId(applied, id))
    && (forall id :: id in before && !HasId(applied, id) ==> LeftBehind(id, before, after, owner, reused))
  }

  /** A full and faithful view. */
  ghost predicate Shows(view: seq<VServerGroup>, groups: map<nat, VGroup>, owner: Owner, reused: seq<nat>) {
    && DistinctIds(view) && (forall vg :: vg in view ==> Faithful(vg, groups, owner, reused))
    && (forall id :: id in groups ==> exists vg :: vg in view && vg.id == id)
  }

  lemma ManagedIsOwnedWhole(vg: VServerGroup, groups: map<nat, VGroup>, owner: Owner, reused: seq<nat>)
    requires Faithful(vg, groups, owner, reused)
    ensures IsManaged(vg, owner) <==> OwnedWhole(groups[vg.id], owner)
  {
    var g := groups[vg.id];
    if ManagedBy(vg.name, owner) {
      if b :| b in vg.backends && b.isUserManaged {
        assert KeyOf(b) in g.backends;
      }
      if k :| k in g.backends && !ManagedBy(g.backends[k].description, owner) {
        var r :| r in vg.backends && KeyOf(r) == k;
      }
    }
  }

  /** The cleanup in terms of the groups that were there. */
  lemma CleanupCleans(view: seq<VServerGroup>, known: seq<VServerGroup>, applied: seq<VServerGroup>,
                      before: map<nat, VGroup>, mid: map<nat, VGroup>, after: map<nat, VGroup>,
                      owner: Owner, reused: seq<nat>)
    requires Shows(view, before, owner, reused) && view <= known && InUse(known[|view|..], applied, |applied|)
    requires mid.Keys == before.Keys + IdSet(known[|view|..]) && after.Keys <= mid.Keys
    requires forall id :: id in mid && !Deletable(known, applied, owner, id) ==> id in after
    requires forall r :: r in known && !HasId(applied, r.id) ==>
              OwnGone(r, after) && (IsManaged(r, owner) ==> r.id !in after)
    ensures CleanedUp(before, after, applied, owner, reused)
  {
    assert known == view + known[|view|..];
    forall id | id in after && id !in before
      ensures HasId(applied, id)
    {
      var r :| r in known[|view|..] && r.id == id;
      UsedHasId(known[|view|..], applied, r);
    }
    forall id | id in before && !HasId(applied, id)
      ensures LeftBehind(id, before, after, owner, reused)
    {
      var vg :| vg in view && vg.id == id;
      ManagedIsOwnedWhole(vg, before, owner, reused);
      UnusedIsLeftBehind(vg, view, known, applied, before, mid, after, owner, reused);
    }
  }

  lemma UsedHasId(created: seq<VServerGroup>, applied: seq<VServerGroup>, c: VServerGroup)
    requires InUse(created, applied, |applied|) && c in created
    ensures HasId(applied, c.id)
  {
    var j :| 0 <= j < |applied| && applied[j].id == c.id;
    assert applied[j] in applied;
  }

  lemma UnusedIsLeftBehind(vg: VServerGroup, view: seq<VServerGroup>, known: seq<VServerGroup>,
                           applied: seq<VServerGroup>,
                           before: map<nat, VGroup>, mid: map<nat, VGroup>, after: map<nat, VGroup>,
                      owner: Owner, reused: seq<nat>)
    requires Shows(view, before, owner, reused) && view <= known && InUse(known[|view|..], applied, |applied|)
    requires vg in view && vg.id in mid && !HasId(applied, vg.id)
    requires IsManaged(vg, owner) <==> OwnedWhole(before[vg.id], owner)
    requires forall id :: id in mid && !Deletable(known, applied, owner, id) ==> id in after
    requires forall r :: r in known && !HasId(applied, r.id) ==>
              OwnGone(r, after) && (IsManaged(r, owner) ==> r.id !in after)
    ensures LeftBehind(vg.id, before, after, owner, reused)
  {
    assert known == view + known[|view|..] && vg in known;
    if Deletable(known, applied, owner, vg.id) {
      var r :| r in known && r.id == vg.id && IsManaged(r, owner);
      if r in known[|view|..] { UsedHasId(known[|view|..], applied, r); assert false; }
      SameView(view, r, vg);
    }
    if ManagedBy(before[vg.id].name, owner) || vg.id in reused {
      forall k | k in before[vg.id].backends && ManagedBy(before[vg.id].backends[k].description, owner)
        ensures k !in BackendsOf(after, vg.id)
      {
        var b :| b in vg.backends && KeyOf(b) == k;
      }
    }
  }

  lemma SameView(view: seq<VServerGroup>, r: VServerGroup, vg: VServerGroup)
    requires DistinctIds(view) && r in view && vg in view && r.id == vg.id
    ensures r == vg
  {
    var i, j :| 0 <= i < |view| && view[i] == r && 0 <= j < |view| && view[j] == vg;
  }

  lemma ReachedSurvivesCleanup(wanted: seq<VServerGroup>, applied: seq<VServerGroup>, view: seq<VServerGroup>,
                               before: map<nat, VGroup>, mid: map<nat, VGroup>, after: map<nat, VGroup>, owner: Owner)
    requires AllReached(wanted, applied, view, before, mid, owner)
    requires forall id :: id in mid && HasId(applied, id) ==> id in after && after[id] == mid[id]
    ensures AllReached(wanted, applied, view, before, after, owner)
  {
    forall i | 0 <= i < |wanted|
      ensures applied[i].id in after && after[applied[i].id] == mid[applied[i].id]
    {
      assert applied[i] in applied;
    }
  }

  /** Every listener has the group it came with, or got one, and is else as it was. */
  ghost predicate HaveGroups(before: seq<Listener>, after: seq<Listener>) {
    && |after| == |before|
    && forall i :: 0 <= i < |before| ==>
         && after[i] == before[i].(vGroupId := after[i].vGroupId) && after[i].vGroupId != 0
         && (before[i].vGroupId != 0 ==> after[i].vGroupId == before[i].vGroupId)
  }

  lemma {:induction false} FirstNamedIsThere(name: string, remote: seq<VServerGroup>)
    ensures FirstNamed(name, remote).Some? ==>
              FirstNamed(name, remote).value in remote && FirstNamed(name, remote).value.name == name
  {
    if remote != [] { FirstNamedIsThere(name, remote[1..]); }
  }

  lemma TiedHaveGroups(before: seq<Listener>, after: seq<Listener>, remote: seq<VServerGroup>)
    requires |after| == |before| && forall r :: r in remote ==> r.id != 0
    requires forall i :: 0 <= i < |before| ==> after[i] == before[i].(vGroupId := TiedId(before[i], remote))
    requires forall lis :: lis in before && lis.vGroupId == 0 ==> FirstNamed(lis.vGroupName, remote).Some?
    ensures HaveGroups(before, after)
  {
    forall i | 0 <= i < |before|
      ensures after[i].vGroupId != 0
    {
      assert before[i] in before;
      FirstNamedIsThere(before[i].vGroupName, remote);
    }
  }

  /** Listeners are dealt with when the service changed, on a reused load balancer only if
      overriding is forced. */
  predicate TiesListeners(serviceChanged: bool, reusedLb: bool, forceOverride: bool) {
    serviceChanged && (!reusedLb || forceOverride)
  }

  /** A run over the groups of a load balancer: describe, apply, tie the listeners when they
      are dealt with, clean up; the first failing stage ends it. Whatever fails, no backend
      that the service does not manage is removed. On success every wanted group is tied to
      the group of its id or name, with existing reused ids every listener to the one of its
      port, of the groups that none of them uses the service's are gone, and unless keys or rivals
      stand in the way every group holds the user's backends and the wanted ones. When besides
      nothing fails and all fit the quota, the run succeeds. The view is what was described. */
  method Run(cloud: SlbCloud, local: LbModel, owner: Owner, reused: seq<nat>, batchSize: int,
             serviceChanged: bool, reusedLb: bool, forceOverride: bool)
    returns (ok: bool, ghost view: seq<VServerGroup>)
    requires cloud.Valid()
    modifies cloud, local
    ensures UserBackendsKept(old(cloud.groups), cloud.groups, owner)
    ensures ok || NoFaults(cloud) ==> Shows(view, old(cloud.groups), owner, reused)
    ensures ok ==> AllPlaced(old(local.groups), local.groups, |local.groups|, cloud.groups)
    ensures ok ==> CleanedUp(old(cloud.groups), cloud.groups, local.groups, owner, reused)
    ensures !serviceChanged || (reusedLb && !forceOverride) ==> local.listeners == old(local.listeners)
    ensures ok && serviceChanged && (!reusedLb || forceOverride) ==> HaveGroups(old(local.listeners), local.listeners)
    ensures ok && serviceChanged && (!reusedLb || forceOverride)
            && SamePorts(old(local.listeners), old(local.groups))
            && (forall l :: l in old(local.groups) && l.id != 0 ==> l.id in old(cloud.groups)) ==>
              EachTied(local.listeners, local.groups, old(local.groups), cloud.groups)
    ensures NoFaults(cloud) && Clear(old(local.groups), view, old(cloud.groups), owner)
            && AllFit(old(local.groups), view, old(cloud.groups), owner, cloud.quota)
            && (serviceChanged && (!reusedLb || forceOverride) ==>
                  SamePorts(old(local.listeners), old(local.groups))) ==>
              ok
    ensures ok && Clear(old(local.groups), view, old(cloud.groups), owner) ==>
              AllReached(old(local.groups), local.groups, view, old(cloud.groups), cloud.groups, owner)
  {
    ghost var before := cloud.groups;
    ghost var wanted, listeners := local.groups, local.listeners;
    var vgs;
    ok, vgs := DescribeVServerGroups(cloud, owner, reused);
    view := vgs;
    if !ok { return; }
    FaithfulAreSafe(cloud, vgs, owner, reused);
    var remote := new LbModel(vgs, []);
    var errs := ApplyVGroups(cloud, local, remote, batchSize, owner, before);
    if errs != 0 { return false, view; }
    ghost var mid := cloud.groups;
    if TiesListeners(serviceChanged, reusedLb, forceOverride) {
      ok := AssociateListeners(local, remote.groups);
      if SamePorts(listeners, wanted) && ReusedExist(wanted, vgs) {
        TiedToOwnGroup(listeners, wanted, local.groups, vgs, remote.groups);
        if ok { TiedAndPlaced(local.listeners, local.groups, wanted, vgs, remote.groups, mid); }
      }
      if !ok { return; }
      TiedHaveGroups(listeners, local.listeners, remote.groups);
    }
    ok := CleanUpAfter(cloud, wanted, local.groups, vgs, remote.groups, owner, batchSize, before, reused);
    if Clear(wanted, vgs, before, owner) {
      ReachedSurvivesCleanup(wanted, local.groups, vgs, before, mid, cloud.groups, owner);
    }
  }

  lemma TiedAndPlaced(listeners: seq<Listener>, applied: seq<VServerGroup>, wanted: seq<VServerGroup>,
                      vgs: seq<VServerGroup>,
                      remote: seq<VServerGroup>, groups: map<nat, VGroup>)
    requires |listeners| == |applied| == |wanted| && AllPlaced(wanted, applied, |wanted|, groups)
    requires AllResolved(wanted, applied, |wanted|, remote) && ReusedExist(wanted, vgs) && vgs <= remote
    requires forall i :: 0 <= i < |wanted| ==> listeners[i].vGroupId == applied[i].id
    ensures EachTied(listeners, applied, wanted, groups)
  {
    assert remote == vgs + remote[|vgs|..];
    forall i | 0 <= i < |wanted| && wanted[i].id != 0
      ensures FirstMatch(wanted[i], remote).Some?
    {
      ReusedIsFound(wanted, i, vgs, remote[|vgs|..]);
    }
    ResolvedIsPlaced(listeners, applied, wanted, remote, groups);
  }

  /** What the wanted groups use is not touched by a cleanup. */
  lemma UsedSurvives(wanted: seq<VServerGroup>, applied: seq<VServerGroup>, mid: map<nat, VGroup>,
                     after: map<nat, VGroup>)
    requires AllPlaced(wanted, applied, |applied|, mid)
    requires forall id :: id in mid && HasId(applied, id) ==> id in after && after[id] == mid[id]
    ensures AllPlaced(wanted, applied, |applied|, after)
    ensures forall j :: 0 <= j < |applied| ==> applied[j].id in after && after[applied[j].id] == mid[applied[j].id]
  {
    forall j | 0 <= j < |applied|
      ensures applied[j].id in after && after[applied[j].id] == mid[applied[j].id]
    {
      assert PlacedIn(wanted[j], applied[j], mid) && applied[j] in applied;
    }
  }

  /** The last stage of a run. */
  method CleanUpAfter(cloud: SlbCloud, ghost wanted: seq<VServerGroup>, applied: seq<VServerGroup>,
                      ghost view: seq<VServerGroup>,
                      known: seq<VServerGroup>, owner: Owner, batchSize: int,
                      ghost before: map<nat, VGroup>, ghost reused: seq<nat>)
    returns (ok: bool)
    requires SafeState(cloud, before, owner, known) && Shows(view, before, owner, reused) && view <= known
    requires AllPlaced(wanted, applied, |applied|, cloud.groups) && InUse(known[|view|..], applied, |applied|)
    requires cloud.groups.Keys == before.Keys + IdSet(known[|view|..])
    modifies cloud`groups, cloud`calls
    ensures UserBackendsKept(before, cloud.groups, owner)
    ensures forall id :: id in old(cloud.groups) && HasId(applied, id) ==>
              id in cloud.groups && cloud.groups[id] == old(cloud.groups)[id]
    ensures AllPlaced(wanted, applied, |applied|, cloud.groups)
    ensures ok ==> CleanedUp(before, cloud.groups, applied, owner, reused)
    ensures NoFaults(cloud) ==> ok
  {
    ghost var mid := cloud.groups;
    ViewIsUsedOnce(view, known, applied, mid);
    var err := Cleanup(cloud, applied, known, owner, batchSize, before);
    ok := !err;
    UsedSurvives(wanted, applied, mid, cloud.groups);
    if ok { CleanupCleans(view, known, applied, before, mid, cloud.groups, owner, reused); }
  }

  lemma ViewIsUsedOnce(vgs: seq<VServerGroup>, known: seq<VServerGroup>, local: seq<VServerGroup>,
                       groups: map<nat, VGroup>)
    requires DistinctIds(vgs) && vgs <= known && (forall r :: r in known ==> r.id in groups)
    requires InUse(known[|vgs|..], local, |local|)
    ensures UnusedOnce(known, local, 0, groups)
  {
    forall j | |vgs| <= j < |known|
      ensures HasId(local, known[j].id)
    {
      assert known[j] in known[|vgs|..];
      var i :| 0 <= i < |local| && local[i].id == known[j].id;
      assert local[i] in local;
    }
  }
}
