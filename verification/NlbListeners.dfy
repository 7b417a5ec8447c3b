/** Applying the wanted listeners of a service to a network load balancer: ids are tied to
    the wanted listeners while unwanted ones are deleted, then each is updated or created. */
module NlbListeners {
  import opened Common
  import opened NamedKeys

  /** A wanted listener; id 0 and group id 0 are "none yet". */
  datatype Listener = Listener(
    id: nat, port: int, protocol: string, description: string, groupName: string, groupId: nat)

  /** A listener in the cloud. */
  datatype Entry = Entry(port: int, protocol: string, description: string, groupId: nat, stopped: bool)

  datatype Key = Key(port: int, protocol: string)

  datatype Remote = Remote(id: nat, entry: Entry)

  datatype ServerGroup = ServerGroup(name: string, id: nat)

  function KeyOf(l: Listener): Key { Key(l.port, l.protocol) }
  function EntryKey(e: Entry): Key { Key(e.port, e.protocol) }
  function EntryOf(l: Listener): Entry { Entry(l.port, l.protocol, l.description, l.groupId, false) }

  type Entries = map<nat, Entry>

  ghost predicate DistinctKeys(m: Entries) {
    forall a, b :: a in m && b in m && EntryKey(m[a]) == EntryKey(m[b]) ==> a == b
  }

  ghost predicate Distinct(s: seq<Listener>) {
    forall i, j :: 0 <= i < j < |s| ==> KeyOf(s[i]) != KeyOf(s[j])
  }

  function Keys(m: Entries): set<Key> { set id | id in m :: EntryKey(m[id]) }
  function Wanted(s: seq<Listener>): set<Key> { set l | l in s :: KeyOf(l) }

  predicate IsManaged(e: Entry, owner: Owner) { NlbListenerManagedBy(e.description, owner) }

  /** A listener whose description does not mark it as this owner's. */
  ghost predicate Another(e: Entry, owner: Owner) {
    forall port, protocol :: Spells(e.description, NlbMark(port, protocol, owner), '.') ==> Atoi(port).None?
  }

  lemma AnotherIsNotManaged(e: Entry, owner: Owner)
    ensures Another(e, owner) <==> !IsManaged(e, owner)
  {
    NlbManagedIsMarked(e.description, owner);
  }

  /** What deletion passes over: the wanted, and on a reused load balancer the foreign. */
  ghost predicate Spared(e: Entry, wanted: set<Key>, reused: bool, owner: Owner) {
    EntryKey(e) in wanted || (reused && Another(e, owner))
  }

  // ---- the cloud -------------------------------------------------------------------------

  /** The listeners of a load balancer. The n-th call fails when fault(n). Creating on a taken
      port and protocol is refused, and counted. */
  class NlbCloud {
    var listeners: Entries
    var nextId: nat
    var calls: nat
    const fault: nat -> bool
    ghost var clashes: nat

    ghost predicate Valid()
      reads this
    {
      nextId > 0 && (forall id :: id in listeners ==> 0 < id < nextId) && DistinctKeys(listeners)
    }

    constructor (listeners: Entries, nextId: nat, fault: nat -> bool)
      requires nextId > 0 && (forall id :: id in listeners ==> 0 < id < nextId) && DistinctKeys(listeners)
      ensures Valid() && this.listeners == listeners && this.fault == fault && clashes == 0
    {
      this.listeners, this.nextId, this.fault := listeners, nextId, fault;
      calls, clashes := 0, 0;
    }

    method Delete(id: nat) returns (ok: bool)
      requires Valid()
      modifies this`listeners, this`calls
      ensures Valid() && listeners == if ok then old(listeners) - {id} else old(listeners)
      ensures calls == old(calls) + 1 && (ok <==> !fault(old(calls)) && id in old(listeners))
    {
      calls := calls + 1;
      if fault(calls - 1) || id !in listeners { return false; }
      listeners := listeners - {id};
      return true;
    }

    method Start(id: nat) returns (ok: bool)
      requires Valid()
      modifies this`listeners, this`calls
      ensures Valid()
      ensures ok ==> id in old(listeners) && listeners == old(listeners)[id := old(listeners)[id].(stopped := false)]
      ensures !ok ==> listeners == old(listeners)
      ensures calls == old(calls) + 1 && (ok <==> !fault(old(calls)) && id in old(listeners))
      ensures ok ==> id in listeners
    {
      calls := calls + 1;
      if fault(calls - 1) || id !in listeners { return false; }
      listeners := listeners[id := listeners[id].(stopped := false)];
      return true;
    }

    method Change(id: nat, description: string, groupId: nat) returns (ok: bool)
      requires Valid()
      modifies this`listeners, this`calls
      ensures Valid()
      ensures ok ==>
                && id in old(listeners)
                && listeners
                   == old(listeners)[id := old(listeners)[id].(description := description, groupId := groupId)]
      ensures !ok ==> listeners == old(listeners)
      ensures calls == old(calls) + 1 && (ok <==> !fault(old(calls)) && id in old(listeners))
      ensures ok ==> id in listeners
    {
      calls := calls + 1;
      if fault(calls - 1) || id !in listeners { return false; }
      listeners := listeners[id := listeners[id].(description := description, groupId := groupId)];
      return true;
    }

    method Create(l: Listener) returns (ok: bool)
      requires Valid()
      modifies this
      ensures Valid()
      ensures listeners == if ok then old(listeners)[old(nextId) := EntryOf(l)] else old(listeners)
      ensures clashes == old(clashes) + (if KeyOf(l) in Keys(old(listeners)) then 1 else 0)
      ensures calls == old(calls) + 1 && (ok <==> !fault(old(calls)) && KeyOf(l) !in Keys(old(listeners)))
    {
      calls := calls + 1;
      if KeyOf(l) in Keys(listeners) {
        clashes := clashes + 1;
        return false;
      }
      if fault(calls - 1) { return false; }
      listeners := listeners[nextId := EntryOf(l)];
      nextId := nextId + 1;
      return true;
    }
  }

  ghost predicate Smooth(cloud: NlbCloud) { forall n :: !cloud.fault(n) }

  /** A list of all the listeners. */
  ghost predicate Lists(remote: seq<Remote>, m: Entries) {
    && (forall i :: 0 <= i < |remote| ==> remote[i].id > 0 && remote[i].id in m && m[remote[i].id] == remote[i].entry)
    && (forall id :: id in m ==> exists i :: 0 <= i < |remote| && remote[i].id == id)
    && (forall i, j :: 0 <= i < j < |remote| ==> remote[i].id != remote[j].id)
  }

  // ---- groups ----------------------------------------------------------------------------

  /** The id of the first group of a name. */
  function FirstOf(groups: seq<ServerGroup>, name: string): Option<nat> {
    if groups == [] then None
    else if groups[0].name == name then Some(groups[0].id)
    else FirstOf(groups[1..], name)
  }

  /** It is the id of a group of that name with none before it; there is none exactly when no
      group has the name. */
  lemma {:induction false} FirstOfIsFirst(groups: seq<ServerGroup>, name: string)
    ensures FirstOf(groups, name).None? <==> forall g :: g in groups ==> g.name != name
    ensures FirstOf(groups, name).Some? ==>
              exists i :: IsFirst(groups, name, i) && groups[i].id == FirstOf(groups, name).value
  {
    if groups != [] {
      FirstOfIsFirst(groups[1..], name);
      if groups[0].name == name {
        assert IsFirst(groups, name, 0);
      } else if i :| IsFirst(groups[1..], name, i) && groups[1..][i].id == FirstOf(groups, name).value {
        assert IsFirst(groups, name, i + 1);
      }
    }
  }

  ghost predicate IsFirst(groups: seq<ServerGroup>, name: string, i: int) {
    0 <= i < |groups| && groups[i].name == name && forall j :: 0 <= j < i ==> groups[j].name != name
  }

  method FindServerGroup(groups: seq<ServerGroup>, name: string) returns (r: Option<nat>)
    ensures r == FirstOf(groups, name)
  {
    var i := 0;
    while i < |groups|
      invariant 0 <= i <= |groups| && FirstOf(groups, name) == FirstOf(groups[i..], name)
    {
      if groups[i].name == name { return Some(groups[i].id); }
      i := i + 1;
    }
    return None;
  }

  /** A wanted listener with the group of its name, unless it came with one. */
  function Tied(l: Listener, groups: seq<ServerGroup>): Listener {
    if l.groupId != 0 || FirstOf(groups, l.groupName).None? then l
    else l.(groupId := FirstOf(groups, l.groupName).value)
  }

  method Associate(a: array<Listener>, groups: seq<ServerGroup>) returns (ok: bool)
    modifies a
    ensures ok ==> forall i :: 0 <= i < a.Length ==> a[i] == Tied(old(a[i]), groups)
    ensures ok <==> forall i :: 0 <= i < a.Length ==>
              old(a[i]).groupId != 0 || FirstOf(groups, old(a[i]).groupName).Some?
  {
    for k := 0 to a.Length
      invariant forall i :: 0 <= i < k ==> a[i] == Tied(old(a[i]), groups)
      invariant forall i :: 0 <= i < k ==> old(a[i]).groupId != 0 || FirstOf(groups, old(a[i]).groupName).Some?
      invariant forall i :: k <= i < a.Length ==> a[i] == old(a[i])
    {
      if a[k].groupId != 0 { continue; }
      var r := FindServerGroup(groups, a[k].groupName);
      if r.None? { return false; }
      a[k] := a[k].(groupId := r.value);
    }
    return true;
  }

  // ---- deletion and ids ------------------------------------------------------------------

  /** A wanted listener with the id of the last listed one of its port and protocol. */
  function WithId(l: Listener, remote: seq<Remote>): Listener {
    if remote == [] then l
    else
      var r := remote[|remote| - 1];
      if EntryKey(r.entry) == KeyOf(l) then l.(id := r.id) else WithId(l, remote[..|remote| - 1])
  }

  lemma {:induction false} WithIdIs(l: Listener, remote: seq<Remote>)
    ensures var t := WithId(l, remote);
            && t == l.(id := t.id)
            && (t.id != l.id ==>
                exists i :: 0 <= i < |remote| && remote[i].id == t.id && EntryKey(remote[i].entry) == KeyOf(l))
            && ((exists i :: 0 <= i < |remote| && EntryKey(remote[i].entry) == KeyOf(l)) ==>
                exists i :: 0 <= i < |remote| && remote[i].id == t.id && EntryKey(remote[i].entry) == KeyOf(l))
  {
    if remote != [] {
      var front := remote[..|remote| - 1];
      WithIdIs(l, front);
      if EntryKey(remote[|remote| - 1].entry) == KeyOf(l) {
      } else {
        assert forall i :: 0 <= i < |front| ==> front[i] == remote[i];
      }
    }
  }

  /** What the deletions leave. */
  ghost function Remaining(m: Entries, remote: seq<Remote>, wanted: set<Key>, reused: bool, owner: Owner): Entries {
    if remote == [] then m
    else
      var r, before := remote[|remote| - 1], Remaining(m, remote[..|remote| - 1], wanted, reused, owner);
      if Spared(r.entry, wanted, reused, owner) then before else before - {r.id}
  }

  lemma {:induction false} RemainingIs(m: Entries, remote: seq<Remote>, wanted: set<Key>, reused: bool,
                                       owner: Owner, id: nat)
    ensures var m' := Remaining(m, remote, wanted, reused, owner);
            && (id in m' <==>
                id in m && forall i :: 0 <= i < |remote| && remote[i].id == id ==>
                    Spared(remote[i].entry, wanted, reused, owner))
            && (id in m' ==> m'[id] == m[id])
  {
    if remote != [] {
      var front := remote[..|remote| - 1];
      RemainingIs(m, front, wanted, reused, owner, id);
      assert forall i :: 0 <= i < |front| ==> front[i] == remote[i];
      assert forall i :: 0 <= i < |remote| ==> i < |front| || remote[i] == remote[|remote| - 1];
    }
  }

  ghost function SparedOf(m: Entries, wanted: set<Key>, reused: bool, owner: Owner): Entries {
    map id | id in m && Spared(m[id], wanted, reused, owner) :: m[id]
  }

  /** For a full list: exactly the spared stay. */
  lemma SparedRemain(m: Entries, remote: seq<Remote>, wanted: set<Key>, reused: bool, owner: Owner)
    requires Lists(remote, m)
    ensures Remaining(m, remote, wanted, reused, owner) == SparedOf(m, wanted, reused, owner)
  {
    forall id
      ensures id in Remaining(m, remote, wanted, reused, owner) <==> id in m && Spared(m[id], wanted, reused, owner)
      ensures id in Remaining(m, remote, wanted, reused, owner) ==>
                Remaining(m, remote, wanted, reused, owner)[id] == m[id]
    {
      RemainingIs(m, remote, wanted, reused, owner, id);
      if id in m {
        var i :| 0 <= i < |remote| && remote[i].id == id;
      }
    }
  }

  /** Ties one listed listener to the wanted one of its key. */
  method TieId(r: Remote, a: array<Listener>) returns (found: bool)
    modifies a
    ensures forall i :: 0 <= i < a.Length ==>
              a[i] == if EntryKey(r.entry) == KeyOf(old(a[i])) then old(a[i]).(id := r.id) else old(a[i])
    ensures found <==> EntryKey(r.entry) in Wanted(old(a[..]))
  {
    found := false;
    for i := 0 to a.Length
      invariant forall j :: 0 <= j < i ==>
                  a[j] == if EntryKey(r.entry) == KeyOf(old(a[j])) then old(a[j]).(id := r.id) else old(a[j])
      invariant forall j :: i <= j < a.Length ==> a[j] == old(a[j])
      invariant found <==> exists j :: 0 <= j < i && EntryKey(r.entry) == KeyOf(old(a[j]))
    {
      if EntryKey(r.entry) == KeyOf(a[i]) {
        found := true;
        a[i] := a[i].(id := r.id);
      }
    }
    ghost var s := old(a[..]);
    assert forall j :: 0 <= j < a.Length ==> s[j] == old(a[j]) && s[j] in s;
  }

  lemma WantedIsStable(s: seq<Listener>, t: seq<Listener>)
    requires |s| == |t| && forall i :: 0 <= i < |s| ==> KeyOf(s[i]) == KeyOf(t[i])
    ensures Wanted(s) == Wanted(t)
  {
    forall k
      ensures k in Wanted(s) <==> k in Wanted(t)
    {
      if k in Wanted(s) {
        var i :| 0 <= i < |s| && KeyOf(s[i]) == k;
        assert t[i] in t;
      }
      if k in Wanted(t) {
        var i :| 0 <= i < |t| && KeyOf(t[i]) == k;
        assert s[i] in s;
      }
    }
  }

  function WithIds(s: seq<Listener>, remote: seq<Remote>): (t: seq<Listener>)
    ensures |t| == |s| && forall i :: 0 <= i < |s| ==> t[i] == WithId(s[i], remote)
  {
    seq(|s|, i requires 0 <= i < |s| => WithId(s[i], remote))
  }

  lemma WithIdsStep(s: seq<Listener>, remote: seq<Remote>, k: int, t: seq<Listener>)
    requires 0 <= k < |remote| && |t| == |s|
    requires var r, u := remote[k], WithIds(s, remote[..k]);
             forall i :: 0 <= i < |s| ==> t[i] == if EntryKey(r.entry) == KeyOf(u[i]) then u[i].(id := r.id) else u[i]
    ensures t == WithIds(s, remote[..k + 1])
  {
    assert remote[..k + 1][..k] == remote[..k];
    forall i | 0 <= i < |s|
      ensures t[i] == WithId(s[i], remote[..k + 1])
    {
      WithIdIs(s[i], remote[..k]);
    }
  }

  lemma WithIdsKeepsKeys(s: seq<Listener>, remote: seq<Remote>)
    ensures Wanted(WithIds(s, remote)) == Wanted(s)
  {
    forall i | 0 <= i < |s| ensures KeyOf(WithIds(s, remote)[i]) == KeyOf(s[i]) { WithIdIs(s[i], remote); }
    WantedIsStable(s, WithIds(s, remote));
  }

  /** Deletion has only removed, and nothing spared. */
  ghost predicate Pruned(m: Entries, m': Entries, wanted: set<Key>, reused: bool, owner: Owner) {
    && (forall id :: id in m && Spared(m[id], wanted, reused, owner) ==> id in m')
    && (forall id :: id in m' ==> id in m && m'[id] == m[id])
  }

  lemma RemainingIsPruned(m: Entries, remote: seq<Remote>, k: int, wanted: set<Key>, reused: bool, owner: Owner)
    requires Lists(remote, m) && 0 <= k <= |remote|
    ensures Pruned(m, Remaining(m, remote[..k], wanted, reused, owner), wanted, reused, owner)
    ensures k < |remote| ==> remote[k].id in Remaining(m, remote[..k], wanted, reused, owner)
  {
    forall id { RemainingIs(m, remote[..k], wanted, reused, owner, id); }
    assert forall i :: 0 <= i < k ==> remote[..k][i] == remote[i];
  }

  lemma RemainingStep(m: Entries, remote: seq<Remote>, k: int, wanted: set<Key>, reused: bool, owner: Owner)
    requires 0 <= k < |remote|
    ensures var before := Remaining(m, remote[..k], wanted, reused, owner);
            Remaining(m, remote[..k + 1], wanted, reused, owner)
            == if Spared(remote[k].entry, wanted, reused, owner) then before else before - {remote[k].id}
  {
    assert remote[..k + 1][..k] == remote[..k];
  }

  method DeleteUnwanted(cloud: NlbCloud, remote: seq<Remote>, a: array<Listener>, reused: bool, owner: Owner)
    returns (ok: bool)
    requires cloud.Valid() && Lists(remote, cloud.listeners)
    modifies cloud`listeners, cloud`calls, a
    ensures cloud.Valid()
    ensures Pruned(old(cloud.listeners), cloud.listeners, Wanted(old(a[..])), reused, owner)
    ensures ok ==> cloud.listeners == Remaining(old(cloud.listeners), remote, Wanted(old(a[..])), reused, owner)
    ensures ok ==> a[..] == WithIds(old(a[..]), remote)
    ensures Smooth(cloud) ==> ok
  {
    ghost var m0, a0 := cloud.listeners, a[..];
    ghost var wanted := Wanted(a0);
    RemainingIsPruned(m0, remote, 0, wanted, reused, owner);
    for k := 0 to |remote|
      invariant cloud.Valid()
      invariant cloud.listeners == Remaining(m0, remote[..k], wanted, reused, owner)
      invariant a[..] == WithIds(a0, remote[..k])
    {
      var r := remote[k];
      RemainingIsPruned(m0, remote, k, wanted, reused, owner);
      RemainingStep(m0, remote, k, wanted, reused, owner);
      WithIdsKeepsKeys(a0, remote[..k]);
      var found := TieId(r, a);
      WithIdsStep(a0, remote, k, a[..]);
      AnotherIsNotManaged(r.entry, owner);
      if !found {
        if reused && !IsManaged(r.entry, owner) { continue; }
        var deleted := cloud.Delete(r.id);
        if !deleted { return false; }
      }
    }
    assert remote[..|remote|] == remote;
    RemainingIsPruned(m0, remote, |remote|, wanted, reused, owner);
    return true;
  }

  // ---- updates and creations -------------------------------------------------------------

  /** What bringing one wanted listener into place makes of the listeners. */
  ghost predicate Placed(m: Entries, m': Entries, l: Listener) {
    exists id :: PlacedAt(m, m', l, id)
  }

  ghost predicate PlacedAt(m: Entries, m': Entries, l: Listener, id: nat) {
    m' == m[id := EntryOf(l)] && (id in m ==> EntryKey(m[id]) == KeyOf(l)) && (id !in m ==> KeyOf(l) !in Keys(m))
  }

  /** The listeners while the wanted ones are brought into place, those in done already. */
  ghost predicate Midway(m1: Entries, m: Entries, done: seq<Listener>) {
    && Keys(m) == Keys(m1) + Wanted(done)
    && (forall l :: l in done ==> EntryOf(l) in m.Values)
    && (forall id :: id in m1 ==> id in m && EntryKey(m[id]) == EntryKey(m1[id]))
    && (forall id :: id in m1 && EntryKey(m1[id]) !in Wanted(done) ==> m[id] == m1[id])
  }

  lemma KeysAfterPlacing(m: Entries, m': Entries, l: Listener)
    requires Placed(m, m', l)
    ensures Keys(m') == Keys(m) + {KeyOf(l)}
  {
    var id :| PlacedAt(m, m', l, id);
    assert m'[id] == EntryOf(l);
    forall k
      ensures k in Keys(m') <==> k in Keys(m) || k == KeyOf(l)
    {
      if k in Keys(m) {
        var i :| i in m && EntryKey(m[i]) == k;
        assert i in m' && EntryKey(m'[i]) == k;
      }
    }
  }

  lemma MidwayStep(m1: Entries, m: Entries, m': Entries, done: seq<Listener>, l: Listener)
    requires Midway(m1, m, done) && DistinctKeys(m) && Placed(m, m', l)
    requires KeyOf(l) !in Wanted(done)
    ensures Midway(m1, m', done + [l])
  {
    KeysAfterPlacing(m, m', l);
    var id :| PlacedAt(m, m', l, id);
    assert Wanted(done + [l]) == Wanted(done) + {KeyOf(l)};
    assert m'[id] == EntryOf(l);
    forall x | x in done
      ensures EntryOf(x) in m'.Values
    {
      var i :| i in m && m[i] == EntryOf(x);
      assert KeyOf(x) in Wanted(done);
      assert i != id && m'[i] == m[i];
    }
  }

  /** Whatever happens while one listener is brought into place, the others stay. */
  ghost predicate OthersKept(m: Entries, m': Entries, l: Listener) {
    forall id :: id in m && EntryKey(m[id]) != KeyOf(l) ==> id in m' && m'[id] == m[id]
  }

  method UpdateNLBListener(cloud: NlbCloud, l: Listener, r: Remote) returns (ok: bool)
    requires cloud.Valid() && r.id in cloud.listeners && cloud.listeners[r.id] == r.entry
             && EntryKey(r.entry) == KeyOf(l)
    modifies cloud`listeners, cloud`calls
    ensures cloud.Valid() && OthersKept(old(cloud.listeners), cloud.listeners, l)
    ensures ok ==> cloud.listeners == old(cloud.listeners)[r.id := EntryOf(l)]
    ensures ok ==> cloud.calls == old(cloud.calls) + (if r.entry.stopped then 1 else 0)
                                  + (if r.entry.(stopped := false) != EntryOf(l) then 1 else 0)
    ensures Smooth(cloud) ==> ok
  {
    if r.entry.stopped {
      ok := cloud.Start(r.id);
      if !ok { return; }
    }
    if r.entry.description != l.description || r.entry.groupId != l.groupId {
      ok := cloud.Change(r.id, l.description, l.groupId);
      return;
    }
    return true;
  }

  /** A wanted listener has the id of the present one of its key, if there is one. */
  ghost predicate IdFits(m: Entries, remote: seq<Remote>, l: Listener) {
    if l.id == 0 then KeyOf(l) !in Keys(m)
    else l.id in m && EntryKey(m[l.id]) == KeyOf(l)
         && exists j :: 0 <= j < |remote| && remote[j] == Remote(l.id, m[l.id])
  }

  ghost predicate DistinctIds(remote: seq<Remote>) {
    (forall i :: 0 <= i < |remote| ==> remote[i].id > 0)
    && forall i, j :: 0 <= i < j < |remote| ==> remote[i].id != remote[j].id
  }

  /** Updates the present listener of the same id, or creates one. */
  method PlaceListener(cloud: NlbCloud, l: Listener, remote: seq<Remote>) returns (ok: bool)
    requires cloud.Valid() && DistinctIds(remote) && IdFits(cloud.listeners, remote, l)
    modifies cloud
    ensures cloud.Valid() && OthersKept(old(cloud.listeners), cloud.listeners, l)
    ensures ok ==> Placed(old(cloud.listeners), cloud.listeners, l)
    ensures cloud.clashes == old(cloud.clashes)
    ensures Smooth(cloud) ==> ok
  {
    var found := false;
    ghost var m := cloud.listeners;
    for j := 0 to |remote|
      invariant cloud.Valid() && cloud.clashes == old(cloud.clashes)
      invariant found <==> exists i :: 0 <= i < j && remote[i].id == l.id
      invariant cloud.listeners == if found then m[l.id := EntryOf(l)] else m
    {
      if l.id == remote[j].id {
        found := true;
        ok := UpdateNLBListener(cloud, l, remote[j]);
        if !ok { return; }
      }
    }
    if !found {
      ghost var id := cloud.nextId;
      ok := cloud.Create(l);
      assert ok ==> PlacedAt(m, cloud.listeners, l, id);
      return;
    }
    assert PlacedAt(m, cloud.listeners, l, l.id);
    return true;
  }

  /** The ids fit once the deletions are over. */
  lemma IdsFitAfterDeletion(m0: Entries, remote: seq<Remote>, local: seq<Listener>, reused: bool, owner: Owner, i: int)
    requires Lists(remote, m0) && DistinctKeys(m0) && 0 <= i < |local| && local[i].id == 0
    ensures var m1 := Remaining(m0, remote, Wanted(local), reused, owner);
            IdFits(m1, remote, WithIds(local, remote)[i])
  {
    var l, m1 := local[i], Remaining(m0, remote, Wanted(local), reused, owner);
    var t := WithId(l, remote);
    WithIdIs(l, remote);
    SparedRemain(m0, remote, Wanted(local), reused, owner);
    assert KeyOf(l) in Wanted(local);
    if t.id != 0 {
      var j :| 0 <= j < |remote| && remote[j].id == t.id && EntryKey(remote[j].entry) == KeyOf(l);
      assert remote[j] == Remote(t.id, m1[t.id]);
    }
  }

  /** They still fit while earlier ones of other keys are brought into place. */
  lemma IdStillFits(m1: Entries, m: Entries, remote: seq<Remote>, done: seq<Listener>, l: Listener)
    requires Midway(m1, m, done) && IdFits(m1, remote, l) && KeyOf(l) !in Wanted(done)
    ensures IdFits(m, remote, l)
  {
  }

  /** The listeners at the end: the wanted ones as wanted, the spared ones as they were, and
      nothing else. */
  ghost predicate AppliedTo(m0: Entries, m: Entries, local: seq<Listener>, reused: bool, owner: Owner) {
    && Keys(m) == Wanted(local) + Keys(Foreign(m0, local, reused, owner))
    && (forall l :: l in local ==> EntryOf(l) in m.Values)
    && ForeignKept(m0, m, local, reused, owner)
  }

  /** Unwanted but spared. */
  ghost function Foreign(m0: Entries, local: seq<Listener>, reused: bool, owner: Owner): Entries {
    map id | id in m0 && EntryKey(m0[id]) !in Wanted(local) && reused && Another(m0[id], owner) :: m0[id]
  }

  ghost predicate ForeignKept(m0: Entries, m: Entries, local: seq<Listener>, reused: bool, owner: Owner) {
    forall id :: id in Foreign(m0, local, reused, owner) ==> id in m && m[id] == m0[id]
  }

  lemma ForeignKeptFurther(m0: Entries, m: Entries, m': Entries, local: seq<Listener>, reused: bool, owner: Owner,
                           l: Listener)
    requires ForeignKept(m0, m, local, reused, owner) && OthersKept(m, m', l) && l in local
    ensures ForeignKept(m0, m', local, reused, owner)
  {
    assert KeyOf(l) in Wanted(local);
  }

  lemma ForeignAfterDeletion(m0: Entries, m1: Entries, local: seq<Listener>, reused: bool, owner: Owner)
    requires Pruned(m0, m1, Wanted(local), reused, owner)
    ensures ForeignKept(m0, m1, local, reused, owner)
  {
  }

  lemma KeysOfSpared(m0: Entries, local: seq<Listener>, reused: bool, owner: Owner)
    ensures Keys(SparedOf(m0, Wanted(local), reused, owner)) + Wanted(local)
         == Wanted(local) + Keys(Foreign(m0, local, reused, owner))
  {
    var m1 := SparedOf(m0, Wanted(local), reused, owner);
    var f := Foreign(m0, local, reused, owner);
    forall id | id in m1 && EntryKey(m1[id]) !in Wanted(local)
      ensures EntryKey(m1[id]) in Keys(f)
    {
      assert id in f && f[id] == m1[id];
    }
    forall id | id in f
      ensures EntryKey(f[id]) in Keys(m1)
    {
      assert id in m1 && m1[id] == f[id];
    }
  }

  lemma AppliedAtEnd(m0: Entries, m: Entries, remote: seq<Remote>, local: seq<Listener>, reused: bool, owner: Owner)
    requires Lists(remote, m0) && Midway(Remaining(m0, remote, Wanted(local), reused, owner), m, local)
    ensures AppliedTo(m0, m, local, reused, owner)
  {
    SparedRemain(m0, remote, Wanted(local), reused, owner);
    KeysOfSpared(m0, local, reused, owner);
    MidwayKeepsForeign(m0, m, local, reused, owner);
  }

  lemma MidwayKeepsForeign(m0: Entries, m: Entries, local: seq<Listener>, reused: bool, owner: Owner)
    requires Midway(SparedOf(m0, Wanted(local), reused, owner), m, local)
    ensures ForeignKept(m0, m, local, reused, owner)
  {
  }

  lemma KeyIsNew(s: seq<Listener>, i: int)
    requires 0 <= i < |s| && Distinct(s)
    ensures KeyOf(s[i]) !in Wanted(s[..i]) && s[..i + 1] == s[..i] + [s[i]] && s[i] in s
  {
  }

  lemma WithIdsIsDistinct(s: seq<Listener>, remote: seq<Remote>)
    requires Distinct(s)
    ensures Distinct(WithIds(s, remote)) && forall i :: 0 <= i < |s| ==> EntryOf(WithIds(s, remote)[i]) == EntryOf(s[i])
  {
    forall i | 0 <= i < |s|
      ensures KeyOf(WithIds(s, remote)[i]) == KeyOf(s[i]) && EntryOf(WithIds(s, remote)[i]) == EntryOf(s[i])
    {
      WithIdIs(s[i], remote);
    }
  }

  /** Brings each wanted listener into place. */
  method PlaceAll(cloud: NlbCloud, remote: seq<Remote>, s: seq<Listener>, ghost m0: Entries, ghost reused: bool,
                  ghost owner: Owner)
    returns (ok: bool)
    requires cloud.Valid() && DistinctIds(remote) && Distinct(s)
    requires forall i :: 0 <= i < |s| ==> IdFits(cloud.listeners, remote, s[i])
    requires ForeignKept(m0, cloud.listeners, s, reused, owner)
    modifies cloud
    ensures cloud.Valid() && cloud.clashes == old(cloud.clashes)
    ensures ok ==> Midway(old(cloud.listeners), cloud.listeners, s)
    ensures ForeignKept(m0, cloud.listeners, s, reused, owner)
    ensures Smooth(cloud) ==> ok
  {
    ghost var m1 := cloud.listeners;
    assert s[..0] == [];
    for i := 0 to |s|
      invariant cloud.Valid() && cloud.clashes == old(cloud.clashes)
      invariant Midway(m1, cloud.listeners, s[..i])
      invariant ForeignKept(m0, cloud.listeners, s, reused, owner)
    {
      KeyIsNew(s, i);
      ghost var m := cloud.listeners;
      IdStillFits(m1, m, remote, s[..i], s[i]);
      ok := PlaceListener(cloud, s[i], remote);
      ForeignKeptFurther(m0, m, cloud.listeners, s, reused, owner, s[i]);
      if !ok { return; }
      MidwayStep(m1, m, cloud.listeners, s[..i], s[i]);
    }
    assert s[..|s|] == s;
    return true;
  }

  ghost function Ties(s: seq<Listener>, groups: seq<ServerGroup>): (t: seq<Listener>)
    ensures |t| == |s| && forall i :: 0 <= i < |s| ==> t[i] == Tied(s[i], groups) && KeyOf(t[i]) == KeyOf(s[i])
  {
    seq(|s|, i requires 0 <= i < |s| => Tied(s[i], groups))
  }

  /** A running listener of a wanted one's port and protocol, with its description and with the
      group it came with or else the first group of its group name. */
  ghost predicate Serves(e: Entry, l: Listener, groups: seq<ServerGroup>) {
    && e.port == l.port && e.protocol == l.protocol && e.description == l.description && !e.stopped
    && if l.groupId != 0 then e.groupId == l.groupId
       else exists i :: IsFirst(groups, l.groupName, i) && groups[i].id == e.groupId
  }

  lemma TiedServes(m: Entries, local: seq<Listener>, groups: seq<ServerGroup>, l: Listener)
    requires l in local && (l.groupId != 0 || FirstOf(groups, l.groupName).Some?)
    requires forall t :: t in Ties(local, groups) ==> EntryOf(t) in m.Values
    ensures exists id :: id in m && Serves(m[id], l, groups)
  {
    var i :| 0 <= i < |local| && local[i] == l;
    var t := Ties(local, groups)[i];
    assert t in Ties(local, groups);
    FirstOfIsFirst(groups, l.groupName);
    var id :| id in m && m[id] == EntryOf(t);
    assert Serves(m[id], l, groups);
  }

  lemma AllServed(m: Entries, local: seq<Listener>, groups: seq<ServerGroup>)
    requires forall l :: l in local ==> l.groupId != 0 || FirstOf(groups, l.groupName).Some?
    requires forall t :: t in Ties(local, groups) ==> EntryOf(t) in m.Values
    ensures forall l :: l in local ==> exists id :: id in m && Serves(m[id], l, groups)
  {
    forall l | l in local
      ensures exists id :: id in m && Serves(m[id], l, groups)
    {
      TiedServes(m, local, groups, l);
    }
  }

  lemma SameWanted(m0: Entries, m: Entries, s: seq<Listener>, t: seq<Listener>, reused: bool, owner: Owner)
    requires Wanted(s) == Wanted(t) && ForeignKept(m0, m, s, reused, owner)
    ensures ForeignKept(m0, m, t, reused, owner)
  {
    assert Foreign(m0, s, reused, owner) == Foreign(m0, t, reused, owner);
  }

  lemma GroupsAreThere(local: seq<Listener>, groups: seq<ServerGroup>)
    ensures (forall i :: 0 <= i < |local| ==> local[i].groupId != 0 || FirstOf(groups, local[i].groupName).Some?)
            <==> forall l :: l in local ==> l.groupId != 0 || exists g :: g in groups && g.name == l.groupName
  {
    forall l | l in local { FirstOfIsFirst(groups, l.groupName); }
    assert forall i :: 0 <= i < |local| ==> local[i] in local;
  }

  /** Applying the wanted listeners. On success the load balancer has the wanted listeners,
      with their groups and running, and of the others exactly the foreign ones of a reused
      load balancer. Whatever fails, those are untouched and no creation meets a taken key. */
  method ApplyListeners(cloud: NlbCloud, remote: seq<Remote>, a: array<Listener>, groups: seq<ServerGroup>,
                        reused: bool, forceOverride: bool, owner: Owner)
    returns (ok: bool)
    requires cloud.Valid() && Lists(remote, cloud.listeners) && Distinct(a[..])
    requires forall i :: 0 <= i < a.Length ==> a[i].id == 0
    modifies cloud, a
    ensures cloud.Valid() && cloud.clashes == old(cloud.clashes)
    ensures reused && !forceOverride ==> ok && cloud.listeners == old(cloud.listeners)
    ensures ForeignKept(old(cloud.listeners), cloud.listeners, old(a[..]), reused, owner)
    ensures ok && !(reused && !forceOverride) ==>
              AppliedTo(old(cloud.listeners), cloud.listeners, Ties(old(a[..]), groups), reused, owner)
    ensures ok && !(reused && !forceOverride) ==>
              forall l :: l in old(a[..]) ==>
                exists id :: id in cloud.listeners && Serves(cloud.listeners[id], l, groups)
    ensures Smooth(cloud) && !(reused && !forceOverride) ==>
              (ok <==> forall l :: l in old(a[..]) ==>
                  l.groupId != 0 || exists g :: g in groups && g.name == l.groupName)
  {
    if reused && !forceOverride { return true; }
    ghost var m0, local, ties := cloud.listeners, a[..], Ties(a[..], groups);
    WantedIsStable(local, ties);
    ok := Associate(a, groups);
    GroupsAreThere(local, groups);
    if !ok { return; }
    assert a[..] == ties;
    ok := DeleteUnwanted(cloud, remote, a, reused, owner);
    ghost var m1 := cloud.listeners;
    ForeignAfterDeletion(m0, m1, ties, reused, owner);
    SameWanted(m0, m1, ties, local, reused, owner);
    if !ok { return; }
    var s := a[..];
    WithIdsIsDistinct(ties, remote);
    WithIdsKeepsKeys(ties, remote);
    SameWanted(m0, m1, ties, s, reused, owner);
    forall i | 0 <= i < |s| ensures IdFits(m1, remote, s[i])
    { IdsFitAfterDeletion(m0, remote, ties, reused, owner, i); }
    ok := PlaceAll(cloud, remote, s, m0, reused, owner);
    SameWanted(m0, cloud.listeners, s, local, reused, owner);
    if ok {
      AppliedWithIds(m0, cloud.listeners, remote, ties, reused, owner);
      AllServed(cloud.listeners, local, groups);
    }
  }

  lemma AppliedWithIds(m0: Entries, m: Entries, remote: seq<Remote>, local: seq<Listener>, reused: bool, owner: Owner)
    requires Lists(remote, m0) && Distinct(local)
    requires Midway(Remaining(m0, remote, Wanted(local), reused, owner), m, WithIds(local, remote))
    ensures AppliedTo(m0, m, local, reused, owner)
  {
    var s := WithIds(local, remote);
    WithIdsIsDistinct(local, remote);
    WithIdsKeepsKeys(local, remote);
    AppliedAtEnd(m0, m, remote, s, reused, owner);
    assert Foreign(m0, s, reused, owner) == Foreign(m0, local, reused, owner);
    forall l | l in local
      ensures EntryOf(l) in m.Values
    {
      var i :| 0 <= i < |local| && local[i] == l;
      assert s[i] in s;
    }
  }
}
