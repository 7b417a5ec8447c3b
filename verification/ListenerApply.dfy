/** Applying the wanted listeners of a service to a load balancer: the plan of creations,
    updates and deletions, and its execution in an order that respects forwarding from
    HTTP to HTTPS listeners. */
module ListenerApply {
  import opened Common
  import opened NamedKeys
  import opened ListenerAttributes
  import opened StableSort

  datatype ListenerId = ListenerId(port: int, protocol: Protocol)

  function IdOf(l: Listener): ListenerId { ListenerId(l.listenerPort, l.protocol) }

  /** The HTTPS listener an HTTP listener forwards to. */
  function ForwardTarget(l: Listener): ListenerId { ListenerId(l.forwardPort, HTTPS) }

  ghost predicate Distinct(s: seq<Listener>) {
    forall i, j :: 0 <= i < j < |s| ==> IdOf(s[i]) != IdOf(s[j])
  }

  ghost predicate HasId(s: seq<Listener>, id: ListenerId) { exists l :: l in s && IdOf(l) == id }

  /** A creation or deletion that was asked of the cloud, and what was there at the time. */
  datatype Event =
    | CreateCall(listener: Listener, present: set<ListenerId>)
    | DeleteCall(id: ListenerId, present: set<ListenerId>)

  /** The listeners of one load balancer, and which of them are stopped. The n-th call fails
      when `fault(n)`. */
  class ListenerCloud {
    var listeners: map<ListenerId, Listener>
    var stopped: set<ListenerId>
    var calls: nat
    const fault: nat -> bool
    ghost var log: seq<Event>

    constructor (listeners: map<ListenerId, Listener>, stopped: set<ListenerId>, fault: nat -> bool)
      ensures this.listeners == listeners && this.stopped == stopped && this.fault == fault && log == []
    {
      this.listeners, this.stopped, this.fault, calls, log := listeners, stopped, fault, 0, [];
    }

    /** Everything there is to see of the cloud, calls made included. */
    ghost function Traces(): (map<ListenerId, Listener>, set<ListenerId>, nat, seq<Event>)
      reads this
    {
      (listeners, stopped, calls, log)
    }

    /** A new listener is stopped; its id must be free. */
    method Create(l: Listener) returns (ok: bool)
      modifies this
      ensures log == old(log) + [CreateCall(l, old(listeners).Keys)]
      ensures ok ==>
                IdOf(l) !in old(listeners) && listeners == old(listeners)[IdOf(l) := Stored(l)]
                && stopped == old(stopped) + {IdOf(l)}
      ensures !ok ==>
                listeners == old(listeners) && stopped == old(stopped)
                && (fault(old(calls)) || IdOf(l) in old(listeners))
      ensures ok ==> !fault(old(calls))
    {
      calls := calls + 1;
      log := log + [CreateCall(l, listeners.Keys)];
      if fault(calls - 1) || IdOf(l) in listeners { return false; }
      listeners, stopped := listeners[IdOf(l) := Stored(l)], stopped + {IdOf(l)};
      return true;
    }

    method Start(id: ListenerId) returns (ok: bool)
      modifies this`stopped, this`calls
      ensures ok ==> stopped == old(stopped) - {id} && !fault(old(calls)) && id in listeners
      ensures !ok ==> stopped == old(stopped) && (fault(old(calls)) || id !in listeners)
    {
      calls := calls + 1;
      if fault(calls - 1) || id !in listeners { return false; }
      stopped := stopped - {id};
      return true;
    }

    method Delete(id: ListenerId) returns (ok: bool)
      modifies this
      ensures log == old(log) + [DeleteCall(id, old(listeners).Keys)]
      ensures ok ==> listeners == old(listeners) - {id} && stopped == old(stopped) - {id}
                     && !fault(old(calls)) && id in old(listeners)
      ensures !ok ==> listeners == old(listeners) && stopped == old(stopped) && (fault(old(calls)) || id !in listeners)
    {
      calls := calls + 1;
      log := log + [DeleteCall(id, listeners.Keys)];
      if fault(calls - 1) || id !in listeners { return false; }
      listeners, stopped := listeners - {id}, stopped - {id};
      return true;
    }

    method SetAttributes(id: ListenerId, l: Listener) returns (ok: bool)
      modifies this`listeners, this`calls
      ensures ok ==> id in old(listeners) && listeners == old(listeners)[id := l] && !fault(old(calls))
      ensures !ok ==> listeners == old(listeners) && (fault(old(calls)) || id !in listeners)
    {
      calls := calls + 1;
      if fault(calls - 1) || id !in listeners { return false; }
      listeners := listeners[id := l];
      return true;
    }

    /** A check that reads but changes nothing. */
    method CheckCertificate() returns (ok: bool)
      modifies this`calls
      ensures !fault(old(calls)) ==> ok
    {
      calls := calls + 1;
      return !fault(calls - 1);
    }
  }

  /** What the cloud keeps of a new listener: HTTP that is not told to forward does not. */
  function Stored(l: Listener): (r: Listener)
    ensures IdOf(r) == IdOf(l)
  {
    if l.protocol.HTTP? && l.listenerForward == "" then l.(listenerForward := OFF) else l
  }

  /** A wanted listener once created. */
  function Made(l: Listener): (r: Listener)
    ensures IdOf(r) == IdOf(l)
  {
    Stored(WithDefaults(l))
  }

  // ---- the plan ---------------------------------------------------------------------------------

  /** A listener is the service's own when its name says so. */
  predicate IsManaged(r: Listener, owner: Owner) { ListenerManagedBy(r.description, owner) }

  function Absent(remote: seq<Listener>): Listener -> bool {
    (l: Listener) => !exists r :: r in remote && IdOf(r) == IdOf(l)
  }
  function Unwanted(local: seq<Listener>, owner: Owner): Listener -> bool {
    (r: Listener) => (!exists l :: l in local && IdOf(l) == IdOf(r)) && IsManaged(r, owner)
  }

  datatype UpdateAction = UpdateAction(local: Listener, remote: Listener)

  /** The updates of one present listener: one for each wanted listener of its id. */
  function UpdatesOf(r: Listener, local: seq<Listener>): (us: seq<UpdateAction>)
    ensures forall u :: u in us <==> u.local in local && u.remote == r && IdOf(u.local) == IdOf(r)
  {
    if local == [] then []
    else
      var l := local[|local| - 1];
      assert local == local[..|local| - 1] + [l];
      UpdatesOf(r, local[..|local| - 1]) + (if IdOf(l) == IdOf(r) then [UpdateAction(l, r)] else [])
  }

  function Updates(local: seq<Listener>, remote: seq<Listener>): (us: seq<UpdateAction>)
    ensures forall u :: u in us <==> u.local in local && u.remote in remote && IdOf(u.local) == IdOf(u.remote)
  {
    if remote == [] then []
    else
      var r := remote[|remote| - 1];
      assert remote == remote[..|remote| - 1] + [r];
      Updates(local, remote[..|remote| - 1]) + UpdatesOf(r, local)
  }

  ghost predicate DistinctUpdates(updates: seq<UpdateAction>) {
    forall i, j :: 0 <= i < j < |updates| ==> IdOf(updates[i].remote) != IdOf(updates[j].remote)
  }

  lemma {:induction false} AtMostOneUpdateOf(r: Listener, local: seq<Listener>)
    requires Distinct(local)
    ensures |UpdatesOf(r, local)| <= 1
  {
    if local != [] {
      var front, l := local[..|local| - 1], local[|local| - 1];
      AtMostOneUpdateOf(r, front);
      if IdOf(l) == IdOf(r) { NoUpdateOf(r, front); }
    }
  }

  lemma {:induction false} NoUpdateOf(r: Listener, local: seq<Listener>)
    requires forall i :: 0 <= i < |local| ==> IdOf(local[i]) != IdOf(r)
    ensures UpdatesOf(r, local) == []
  {
    if local != [] { NoUpdateOf(r, local[..|local| - 1]); }
  }

  /** With distinct ids on both sides, no listener is updated twice. */
  lemma {:induction false} UpdatesAreDistinct(local: seq<Listener>, remote: seq<Listener>)
    requires Distinct(local) && Distinct(remote)
    ensures DistinctUpdates(Updates(local, remote))
  {
    if remote != [] {
      var front, r := remote[..|remote| - 1], remote[|remote| - 1];
      UpdatesAreDistinct(local, front);
      AtMostOneUpdateOf(r, local);
      var us, more := Updates(local, front), UpdatesOf(r, local);
      var all: seq<UpdateAction> := us + more;
      forall i, j | 0 <= i < j < |all|
        ensures IdOf(all[i].remote) != IdOf(all[j].remote)
      {
        if j >= |us| {
          assert us[i] in us && more[j - |us|] in more;
          var k :| 0 <= k < |front| && front[k] == us[i].remote;
          assert remote[k] == us[i].remote;
        }
      }
    }
  }

  method BuildActions(local: seq<Listener>, remote: seq<Listener>, owner: Owner)
    returns (creates: seq<Listener>, updates: seq<UpdateAction>, deletes: seq<Listener>)
    ensures creates == Filter(Absent(remote), local)
    ensures deletes == Filter(Unwanted(local, owner), remote)
    ensures updates == Updates(local, remote)
  {
    creates, updates, deletes := [], [], [];
    for i := 0 to |remote|
      invariant deletes == Filter(Unwanted(local, owner), remote[..i])
      invariant updates == Updates(local, remote[..i])
    {
      FilterStep(Unwanted(local, owner), remote, i);
      assert remote[..i + 1][..i] == remote[..i];
      var found, more := CollectUpdates(remote[i], local);
      updates := updates + more;
      if !found && IsManaged(remote[i], owner) { deletes := deletes + [remote[i]]; }
    }
    for i := 0 to |local|
      invariant creates == Filter(Absent(remote), local[..i])
    {
      FilterStep(Absent(remote), local, i);
      if !exists r :: r in remote && IdOf(r) == IdOf(local[i]) { creates := creates + [local[i]]; }
    }
    assert remote[..|remote|] == remote && local[..|local|] == local;
  }

  method CollectUpdates(r: Listener, local: seq<Listener>) returns (found: bool, updates: seq<UpdateAction>)
    ensures updates == UpdatesOf(r, local)
    ensures found <==> exists l :: l in local && IdOf(l) == IdOf(r)
  {
    found, updates := false, [];
    for j := 0 to |local|
      invariant updates == UpdatesOf(r, local[..j])
      invariant found <==> exists l :: l in local[..j] && IdOf(l) == IdOf(r)
    {
      assert local[..j + 1][..j] == local[..j] && local[..j + 1] == local[..j] + [local[j]];
      if IdOf(local[j]) == IdOf(r) {
        found := true;
        updates := updates + [UpdateAction(local[j], r)];
      }
    }
    assert local[..|local|] == local;
  }

  // ---- single actions -------------------------------------------------------------------------------

  /** Only one listener may differ. */
  ghost predicate OnlyListener(before: map<ListenerId, Listener>, after: map<ListenerId, Listener>, id: ListenerId) {
    && (forall i :: i in before && i != id ==> i in after && after[i] == before[i])
    && (forall i :: i in after && i != id ==> i in before)
  }

  /** Creating a listener, with its defaults, and starting it. */
  method CreateListener(cloud: ListenerCloud, l: Listener) returns (ok: bool)
    modifies cloud
    ensures OnlyListener(old(cloud.listeners), cloud.listeners, IdOf(l))
    ensures cloud.stopped <= old(cloud.stopped) + {IdOf(l)}
    ensures cloud.log == old(cloud.log)
            + (if l.protocol.OtherProtocol? then [] else [CreateCall(WithDefaults(l), old(cloud.listeners).Keys)])
    ensures ok ==>
              cloud.listeners == old(cloud.listeners)[IdOf(l) := Made(l)]
              && cloud.stopped == old(cloud.stopped) - {IdOf(l)}
    ensures (forall n :: !cloud.fault(n)) && IdOf(l) !in old(cloud.listeners) && !l.protocol.OtherProtocol? ==> ok
  {
    if l.protocol.OtherProtocol? { return false; }
    ok := cloud.Create(WithDefaults(l));
    if !ok { return; }
    ok := cloud.Start(IdOf(l));
  }

  /** The forwarding rule of an HTTP listener cannot be updated, only recreated. */
  predicate NeedsRecreate(local: Listener, remote: Listener) {
    if local.forwardPort != 0 then remote.listenerForward != ON || remote.forwardPort != local.forwardPort
    else remote.listenerForward != OFF
  }

  /** The listener a recreation asks for. */
  function Recreated(local: Listener): (l: Listener)
    ensures IdOf(l) == IdOf(local) && l.forwardPort == local.forwardPort
    ensures l.listenerForward == if local.forwardPort == 0 then "off" else local.listenerForward
  {
    if local.forwardPort != 0 then local else local.(listenerForward := OFF)
  }

  /** What an updated listener becomes. */
  function Updated(local: Listener, remote: Listener): Listener {
    if local.protocol.HTTP? && NeedsRecreate(local, remote) then Made(Recreated(local))
    else if local.protocol.HTTP? && remote.listenerForward == ON then remote
    else Merged(local, remote)
  }

  /** The update of a listener has nothing to do. */
  predicate Fixed(l: Listener, r: Listener) {
    if l.protocol.HTTP? then !NeedsRecreate(l, r) && (r.listenerForward == ON || Merged(l, r) == r)
    else Merged(l, r) == r
  }

  /** Forwarding is marked as the builder of listeners marks it. */
  predicate ForwardIsMarked(l: Listener) {
    if l.forwardPort != 0 then l.listenerForward == ON else l.listenerForward == "" || l.listenerForward == OFF
  }

  lemma StoredIsUpToDate(l: Listener)
    ensures Merged(l, Made(l)) == Made(l)
  {
    CreatedIsUpToDate(l);
    NothingToUpdate(l, WithDefaults(l));
    NothingToUpdate(l, Made(l));
    assert forall f :: Get(f, Made(l)) == Get(f, WithDefaults(l));
    assert forall f :: Followed(f, l, Made(l)) == Followed(f, l, WithDefaults(l));
  }

  /** A created listener is left alone by the next update exactly when its forwarding is marked;
      else an HTTP listener is recreated every time. */
  lemma CreatedIsFixed(l: Listener)
    ensures Fixed(l, Made(l)) <==> (l.protocol.HTTP? ==> ForwardIsMarked(l))
  {
    StoredIsUpToDate(l);
  }

  /** So is an updated one, whatever it was before. */
  lemma UpdatedIsFixed(l: Listener, r: Listener)
    requires l.protocol.HTTP? ==> ForwardIsMarked(l)
    ensures Fixed(l, Updated(l, r))
  {
    UpdateIsIdempotent(l, r);
    StoredIsUpToDate(Recreated(l));
    MergedIgnoresForward(l, Made(Recreated(l)));
  }

  lemma MergedIgnoresForward(l: Listener, r: Listener)
    ensures Merged(Recreated(l), r) == Merged(l, r)
  {
    assert forall f :: Followed(f, Recreated(l), r) == Followed(f, l, r);
  }

  /** The calls an update may make: none, a deletion, or a deletion and a creation. */
  ghost predicate UpdateEvents(events: seq<Event>, local: Listener, present: set<ListenerId>) {
    || events == []
    || events == [DeleteCall(IdOf(local), present)]
    || events == [DeleteCall(IdOf(local), present), CreateCall(WithDefaults(Recreated(local)), present - {IdOf(local)})]
  }

  /** Starting a listener that was found stopped. */
  method EnsureStarted(cloud: ListenerCloud, id: ListenerId, wasStopped: bool) returns (ok: bool)
    modifies cloud`stopped, cloud`calls
    ensures cloud.stopped <= old(cloud.stopped)
    ensures ok && (id in old(cloud.stopped) ==> wasStopped) ==> cloud.stopped == old(cloud.stopped) - {id}
    ensures (forall n :: !cloud.fault(n)) && id in cloud.listeners ==> ok
    ensures !wasStopped ==> ok && cloud.Traces() == old(cloud.Traces())
  {
    if wasStopped {
      ok := cloud.Start(id);
    } else {
      ok := true;
    }
  }

  method UpdateHttp(cloud: ListenerCloud, local: Listener, remote: Listener, wasStopped: bool) returns (ok: bool)
    requires IdOf(local) == IdOf(remote) && local.protocol.HTTP?
    modifies cloud
    ensures OnlyListener(old(cloud.listeners), cloud.listeners, IdOf(local))
    ensures cloud.stopped <= old(cloud.stopped) + {IdOf(local)}
    ensures old(cloud.log) <= cloud.log && UpdateEvents(cloud.log[|old(cloud.log)|..], local, old(cloud.listeners).Keys)
    ensures ok && (IdOf(local) in old(cloud.stopped) ==> wasStopped) ==>
              cloud.stopped == old(cloud.stopped) - {IdOf(local)}
    ensures ok && IdOf(local) in old(cloud.listeners) && old(cloud.listeners)[IdOf(local)] == remote ==>
              cloud.listeners == old(cloud.listeners)[IdOf(local) := Updated(local, remote)]
    ensures (forall n :: !cloud.fault(n)) && IdOf(local) in old(cloud.listeners) ==> ok
    ensures Fixed(local, remote) && !wasStopped ==> ok && cloud.Traces() == old(cloud.Traces())
  {
    var id := IdOf(local);
    ok := EnsureStarted(cloud, id, wasStopped);
    if !ok { return; }
    if NeedsRecreate(local, remote) {
      ok := cloud.Delete(id);
      if !ok { return; }
      ok := CreateListener(cloud, Recreated(local));
      return;
    }
    if remote.listenerForward == ON {
      return true;
    }
    var needUpdate, update := IsNeedUpdate(local, remote);
    if !needUpdate {
      return true;
    }
    ok := cloud.SetAttributes(id, update);
  }

  method UpdateOther(cloud: ListenerCloud, local: Listener, remote: Listener, wasStopped: bool) returns (ok: bool)
    requires IdOf(local) == IdOf(remote) && !local.protocol.HTTP?
    modifies cloud
    ensures OnlyListener(old(cloud.listeners), cloud.listeners, IdOf(local)) && cloud.log == old(cloud.log)
    ensures cloud.stopped <= old(cloud.stopped)
    ensures ok && (IdOf(local) in old(cloud.stopped) ==> wasStopped) ==>
              cloud.stopped == old(cloud.stopped) - {IdOf(local)}
    ensures ok && IdOf(local) in old(cloud.listeners) && old(cloud.listeners)[IdOf(local)] == remote ==>
              cloud.listeners == old(cloud.listeners)[IdOf(local) := Updated(local, remote)]
    ensures (forall n :: !cloud.fault(n)) && IdOf(local) in old(cloud.listeners) && !local.protocol.OtherProtocol? ==>
              ok
    ensures Fixed(local, remote) && !wasStopped && !local.protocol.OtherProtocol? ==>
              ok && cloud.Traces() == old(cloud.Traces())
  {
    if local.protocol.OtherProtocol? { return false; }
    var id := IdOf(local);
    ok := EnsureStarted(cloud, id, wasStopped);
    if !ok { return; }
    var needUpdate, update := IsNeedUpdate(local, remote);
    if !needUpdate {
      return true;
    }
    if local.protocol.HTTPS? && Get(CertId, local) != Get(CertId, remote) {
      ok := cloud.CheckCertificate();
      if !ok { return; }
    }
    ok := cloud.SetAttributes(id, update);
  }

  method UpdateListener(cloud: ListenerCloud, u: UpdateAction, wasStopped: bool) returns (ok: bool)
    requires IdOf(u.local) == IdOf(u.remote)
    modifies cloud
    ensures OnlyListener(old(cloud.listeners), cloud.listeners, IdOf(u.local))
    ensures cloud.stopped <= old(cloud.stopped) + {IdOf(u.local)}
    ensures old(cloud.log) <= cloud.log
            && UpdateEvents(cloud.log[|old(cloud.log)|..], u.local, old(cloud.listeners).Keys)
    ensures !u.local.protocol.HTTP? ==> cloud.log == old(cloud.log)
    ensures ok && (IdOf(u.local) in old(cloud.stopped) ==> wasStopped) ==>
              cloud.stopped == old(cloud.stopped) - {IdOf(u.local)}
    ensures ok && IdOf(u.local) in old(cloud.listeners) && old(cloud.listeners)[IdOf(u.local)] == u.remote ==>
              cloud.listeners == old(cloud.listeners)[IdOf(u.local) := Updated(u.local, u.remote)]
    ensures (forall n :: !cloud.fault(n)) && IdOf(u.local) in old(cloud.listeners)
            && !u.local.protocol.OtherProtocol? ==>
              ok
    ensures Fixed(u.local, u.remote) && !wasStopped && !u.local.protocol.OtherProtocol? ==>
              ok && cloud.Traces() == old(cloud.Traces())
  {
    if u.local.protocol.HTTP? {
      ok := UpdateHttp(cloud, u.local, u.remote, wasStopped);
    } else {
      ok := UpdateOther(cloud, u.local, u.remote, wasStopped);
      assert cloud.log[|old(cloud.log)|..] == [];
    }
  }

  // ---- the three rounds --------------------------------------------------------------------------------

  function Ids(s: seq<Listener>): set<ListenerId> { set l | l in s :: IdOf(l) }

  /** A creation is never asked for an id that is taken, and a listener that forwards to a
      wanted HTTPS listener is only created once that one is there. */
  ghost predicate GoodEvent(e: Event, local: seq<Listener>) {
    e.CreateCall? ==>
      && IdOf(e.listener) !in e.present
      && (e.listener.protocol.HTTP? && e.listener.forwardPort != 0 && ForwardTarget(e.listener) in Ids(local) ==>
            ForwardTarget(e.listener) in e.present)
  }

  /** From here on the only deletions are of wanted listeners, which are then recreated. */
  ghost predicate DeletesWanted(log: seq<Event>, from: nat, local: seq<Listener>) {
    from <= |log| && forall i :: from <= i < |log| && log[i].DeleteCall? ==> log[i].id in Ids(local)
  }

  ghost predicate GoodEvents(log: seq<Event>, from: nat, local: seq<Listener>) {
    from <= |log| && forall i :: from <= i < |log| ==> GoodEvent(log[i], local)
  }

  /** The deletions, in order; the first failure ends them. */
  method ExecuteDeletes(cloud: ListenerCloud, deletes: seq<Listener>) returns (ok: bool)
    modifies cloud
    ensures old(cloud.log) <= cloud.log && |cloud.log| <= |old(cloud.log)| + |deletes|
    ensures forall i :: |old(cloud.log)| <= i < |cloud.log| ==>
              cloud.log[i].DeleteCall? && cloud.log[i].id == IdOf(deletes[i - |old(cloud.log)|])
    ensures cloud.stopped <= old(cloud.stopped) && cloud.listeners.Keys <= old(cloud.listeners).Keys
    ensures forall id :: id in old(cloud.listeners) && id !in Ids(deletes) ==>
              id in cloud.listeners && cloud.listeners[id] == old(cloud.listeners)[id]
    ensures ok ==> cloud.listeners.Keys == old(cloud.listeners).Keys - Ids(deletes)
    ensures (forall n :: !cloud.fault(n)) && Distinct(deletes) && Ids(deletes) <= old(cloud.listeners).Keys ==> ok
    ensures deletes == [] ==> ok && cloud.Traces() == old(cloud.Traces())
  {
    for i := 0 to |deletes|
      invariant i == 0 ==> cloud.Traces() == old(cloud.Traces())
      invariant old(cloud.log) <= cloud.log && |cloud.log| == |old(cloud.log)| + i
      invariant forall j :: |old(cloud.log)| <= j < |cloud.log| ==>
                  cloud.log[j].DeleteCall? && cloud.log[j].id == IdOf(deletes[j - |old(cloud.log)|])
      invariant cloud.stopped <= old(cloud.stopped)
      invariant cloud.listeners.Keys == old(cloud.listeners).Keys - Ids(deletes[..i])
      invariant forall id :: id in cloud.listeners ==> cloud.listeners[id] == old(cloud.listeners)[id]
    {
      assert Ids(deletes[..i + 1]) == Ids(deletes[..i]) + {IdOf(deletes[i])} by {
        assert deletes[..i + 1] == deletes[..i] + [deletes[i]];
      }
      ok := cloud.Delete(IdOf(deletes[i]));
      if !ok { return; }
    }
    assert deletes[..|deletes|] == deletes;
    return true;
  }

  /** The listeners after a list of creations. */
  function AddAll(m: map<ListenerId, Listener>, s: seq<Listener>): map<ListenerId, Listener> {
    if s == [] then m
    else var l := s[|s| - 1]; AddAll(m, s[..|s| - 1])[IdOf(l) := Made(l)]
  }

  lemma IdsStep(s: seq<Listener>)
    requires s != []
    ensures Ids(s) == Ids(s[..|s| - 1]) + {IdOf(s[|s| - 1])}
  {
    assert s == s[..|s| - 1] + [s[|s| - 1]];
  }

  lemma {:induction false} AddAllKeys(m: map<ListenerId, Listener>, s: seq<Listener>)
    ensures AddAll(m, s).Keys == m.Keys + Ids(s)
    ensures forall id :: id in m && id !in Ids(s) ==> AddAll(m, s)[id] == m[id]
  {
    if s != [] {
      AddAllKeys(m, s[..|s| - 1]);
      IdsStep(s);
    }
  }

  lemma {:induction false} AddAllValues(m: map<ListenerId, Listener>, s: seq<Listener>, i: nat)
    requires Distinct(s) && i < |s|
    ensures IdOf(s[i]) in AddAll(m, s) && AddAll(m, s)[IdOf(s[i])] == Made(s[i])
  {
    if i < |s| - 1 { AddAllValues(m, s[..|s| - 1], i); }
  }

  /** With the HTTPS creations in front, each creation comes at a good moment. */
  lemma CreateIsGood(creates: seq<Listener>, i: nat, present: set<ListenerId>, local: seq<Listener>)
    requires i < |creates| && Distinct(creates) && Ids(creates) !! present && Ids(local) <= present + Ids(creates)
    requires forall i, j :: 0 <= i < j < |creates| && creates[j].protocol.HTTPS? ==> creates[i].protocol.HTTPS?
    ensures GoodEvent(CreateCall(WithDefaults(creates[i]), present + Ids(creates[..i])), local)
    ensures IdOf(creates[i]) in Ids(creates) && IdOf(creates[i]) !in present + Ids(creates[..i])
  {
    var l := creates[i];
    assert l in creates;
    forall c | c in creates[..i]
      ensures IdOf(c) != IdOf(l)
    {
      var j :| 0 <= j < i && creates[j] == c;
    }
    if l.protocol.HTTP? && l.forwardPort != 0 && ForwardTarget(l) in Ids(local) && ForwardTarget(l) !in present {
      var c :| c in creates && IdOf(c) == ForwardTarget(l);
      var j :| 0 <= j < |creates| && creates[j] == c;
      assert creates[..i][j] == c;
    }
  }

  /** The creations, in order; the first failure ends them. */
  method ExecuteCreates(cloud: ListenerCloud, creates: seq<Listener>, ghost local: seq<Listener>) returns (ok: bool)
    requires Distinct(creates) && Ids(creates) !! cloud.listeners.Keys
    requires Ids(local) <= cloud.listeners.Keys + Ids(creates)
    requires forall i, j :: 0 <= i < j < |creates| && creates[j].protocol.HTTPS? ==> creates[i].protocol.HTTPS?
    modifies cloud
    ensures old(cloud.log) <= cloud.log && GoodEvents(cloud.log, |old(cloud.log)|, local)
    ensures DeletesWanted(cloud.log, |old(cloud.log)|, local)
    ensures forall id :: id in old(cloud.listeners) ==>
              id in cloud.listeners && cloud.listeners[id] == old(cloud.listeners)[id]
    ensures ok ==> cloud.listeners == AddAll(old(cloud.listeners), creates) && cloud.stopped <= old(cloud.stopped)
    ensures (forall n :: !cloud.fault(n)) && (forall l :: l in creates ==> !l.protocol.OtherProtocol?) ==> ok
    ensures creates == [] ==> ok && cloud.Traces() == old(cloud.Traces())
  {
    ghost var before := cloud.listeners;
    for i := 0 to |creates|
      invariant i == 0 ==> cloud.Traces() == old(cloud.Traces())
      invariant old(cloud.log) <= cloud.log && GoodEvents(cloud.log, |old(cloud.log)|, local)
      invariant DeletesWanted(cloud.log, |old(cloud.log)|, local)
      invariant cloud.stopped <= old(cloud.stopped)
      invariant cloud.listeners == AddAll(before, creates[..i])
    {
      CreateStep(before, creates, i, local);
      ok := CreateListener(cloud, creates[i]);
      if !ok { return; }
    }
    assert creates[..|creates|] == creates;
    KeptByAdding(before, creates, |creates|);
    return true;
  }

  /** A creation at its turn. */
  lemma CreateStep(before: map<ListenerId, Listener>, creates: seq<Listener>, i: nat, local: seq<Listener>)
    requires i < |creates| && Distinct(creates) && Ids(creates) !! before.Keys
             && Ids(local) <= before.Keys + Ids(creates)
    requires forall i, j :: 0 <= i < j < |creates| && creates[j].protocol.HTTPS? ==> creates[i].protocol.HTTPS?
    ensures var mid, id := AddAll(before, creates[..i]), IdOf(creates[i]);
            && GoodEvent(CreateCall(WithDefaults(creates[i]), mid.Keys), local)
            && id !in mid && id !in before
            && AddAll(before, creates[..i + 1]) == mid[id := Made(creates[i])]
            && (forall x :: x in before ==> x in mid && mid[x] == before[x])
  {
    var mid := AddAll(before, creates[..i]);
    assert mid.Keys == before.Keys + Ids(creates[..i]) by { AddAllKeys(before, creates[..i]); }
    CreateIsGood(creates, i, before.Keys, local);
    AddAllStep(before, creates, i);
    KeptByAdding(before, creates, i);
  }

  lemma AddAllStep(before: map<ListenerId, Listener>, s: seq<Listener>, i: nat)
    requires i < |s|
    ensures AddAll(before, s[..i + 1]) == AddAll(before, s[..i])[IdOf(s[i]) := Made(s[i])]
  {
    assert s[..i + 1][..i] == s[..i];
  }

  lemma KeptByAdding(m: map<ListenerId, Listener>, s: seq<Listener>, i: nat)
    requires i <= |s| && Ids(s) !! m.Keys
    ensures forall id :: id in m ==> id in AddAll(m, s[..i]) && AddAll(m, s[..i])[id] == m[id]
    ensures i < |s| ==> IdOf(s[i]) !in m
  {
    AddAllKeys(m, s[..i]);
    assert forall l :: l in s[..i] ==> l in s;
    assert Ids(s[..i]) <= Ids(s);
    if i < |s| { assert s[i] in s; }
  }

  /** The listeners after a list of updates. */
  function ReviseAll(m: map<ListenerId, Listener>, us: seq<UpdateAction>): map<ListenerId, Listener> {
    if us == [] then m
    else var u := us[|us| - 1]; ReviseAll(m, us[..|us| - 1])[IdOf(u.remote) := Updated(u.local, u.remote)]
  }

  ghost predicate Touched(us: seq<UpdateAction>, id: ListenerId) { exists u :: u in us && IdOf(u.remote) == id }

  lemma TouchedStep(us: seq<UpdateAction>, id: ListenerId)
    requires us != []
    ensures Touched(us, id) <==> Touched(us[..|us| - 1], id) || id == IdOf(us[|us| - 1].remote)
  {
    assert us == us[..|us| - 1] + [us[|us| - 1]];
  }

  lemma {:induction false} ReviseAllKeys(m: map<ListenerId, Listener>, us: seq<UpdateAction>)
    ensures forall id :: id in ReviseAll(m, us) <==> id in m || Touched(us, id)
    ensures forall id :: id in m && !Touched(us, id) ==> ReviseAll(m, us)[id] == m[id]
  {
    if us != [] {
      ReviseAllKeys(m, us[..|us| - 1]);
      forall id { TouchedStep(us, id); }
    }
  }

  lemma {:induction false} ReviseAllValues(m: map<ListenerId, Listener>, us: seq<UpdateAction>, i: nat)
    requires DistinctUpdates(us) && i < |us|
    ensures IdOf(us[i].remote) in ReviseAll(m, us)
            && ReviseAll(m, us)[IdOf(us[i].remote)] == Updated(us[i].local, us[i].remote)
  {
    if i < |us| - 1 { ReviseAllValues(m, us[..|us| - 1], i); }
  }

  lemma NotYetTouched(us: seq<UpdateAction>, i: nat)
    requires i < |us| && DistinctUpdates(us)
    ensures !Touched(us[..i], IdOf(us[i].remote))
  {
    forall u | u in us[..i]
      ensures IdOf(u.remote) != IdOf(us[i].remote)
    {
      var j :| 0 <= j < i && us[j] == u;
    }
  }

  lemma UpdateIsGood(log: seq<Event>, from: nat, l: Listener, present: set<ListenerId>, local: seq<Listener>)
    requires from <= |log| && UpdateEvents(log[from..], l, present) && Ids(local) <= present && l in local
    requires l.protocol.HTTP? || |log| == from
    ensures forall i :: from <= i < |log| ==> GoodEvent(log[i], local)
    ensures DeletesWanted(log, from, local)
  {
    forall i | from <= i < |log|
      ensures GoodEvent(log[i], local) && (log[i].DeleteCall? ==> log[i].id in Ids(local))
    {
      assert log[i] == log[from..][i - from];
    }
  }

  /** None of the updates has anything to do. */
  ghost predicate AllFixed(us: seq<UpdateAction>, stopped: set<ListenerId>) {
    forall u :: u in us ==> Fixed(u.local, u.remote) && IdOf(u.remote) !in stopped && !u.local.protocol.OtherProtocol?
  }

  /** The updates fit the listeners they were planned on. */
  ghost predicate Planned(us: seq<UpdateAction>, m: map<ListenerId, Listener>) {
    && DistinctUpdates(us)
    && forall u :: u in us ==>
         IdOf(u.local) == IdOf(u.remote) && IdOf(u.remote) in m && m[IdOf(u.remote)] == u.remote
  }

  /** The updates, in order; the first failure ends them. */
  method ExecuteUpdates(cloud: ListenerCloud, updates: seq<UpdateAction>, wasStopped: set<ListenerId>,
                        ghost local: seq<Listener>) returns (ok: bool)
    requires Ids(local) <= cloud.listeners.Keys && cloud.stopped <= wasStopped && Planned(updates, cloud.listeners)
    requires forall u :: u in updates ==> u.local in local
    modifies cloud
    ensures old(cloud.log) <= cloud.log && GoodEvents(cloud.log, |old(cloud.log)|, local)
    ensures DeletesWanted(cloud.log, |old(cloud.log)|, local)
    ensures forall id :: id in old(cloud.listeners) && !Touched(updates, id) ==>
              id in cloud.listeners && cloud.listeners[id] == old(cloud.listeners)[id]
    ensures ok ==> cloud.listeners == ReviseAll(old(cloud.listeners), updates)
    ensures ok ==> cloud.stopped <= old(cloud.stopped) && forall u :: u in updates ==> IdOf(u.remote) !in cloud.stopped
    ensures (forall n :: !cloud.fault(n)) && (forall u :: u in updates ==> !u.local.protocol.OtherProtocol?) ==> ok
    ensures AllFixed(updates, wasStopped) ==> ok && cloud.Traces() == old(cloud.Traces())
  {
    ghost var before := cloud.listeners;
    for i := 0 to |updates|
      invariant AllFixed(updates, wasStopped) ==> cloud.Traces() == old(cloud.Traces())
      invariant DeletesWanted(cloud.log, |old(cloud.log)|, local)
      invariant old(cloud.log) <= cloud.log && GoodEvents(cloud.log, |old(cloud.log)|, local)
      invariant cloud.listeners == ReviseAll(before, updates[..i])
      invariant cloud.stopped <= old(cloud.stopped)
      invariant forall j :: 0 <= j < i ==> IdOf(updates[j].remote) !in cloud.stopped
    {
      ghost var logged := |cloud.log|;
      UpdateFits(before, updates, i);
      ok := UpdateListener(cloud, updates[i], IdOf(updates[i].remote) in wasStopped);
      UpdateIsGood(cloud.log, logged, updates[i].local, before.Keys, local);
      if !ok { return; }
    }
    assert updates[..|updates|] == updates;
    ReviseAllKeys(before, updates);
    return true;
  }

  /** At its turn, an update finds the listener it was planned on. */
  lemma UpdateFits(before: map<ListenerId, Listener>, us: seq<UpdateAction>, i: nat)
    requires i < |us| && Planned(us, before)
    ensures var mid, id := ReviseAll(before, us[..i]), IdOf(us[i].remote);
            && mid.Keys == before.Keys && id in mid && mid[id] == us[i].remote && IdOf(us[i].local) == id
            && (forall x :: x in before && !Touched(us, x) ==> mid[x] == before[x])
            && ReviseAll(before, us[..i + 1]) == mid[id := Updated(us[i].local, us[i].remote)]
  {
    ReviseAllKeys(before, us[..i]);
    NotYetTouched(us, i);
    assert us[i] in us && us[..i + 1][..i] == us[..i];
    assert forall x :: Touched(us[..i], x) ==> Touched(us, x) && x in before;
  }

  // ---- the whole application -------------------------------------------------------------------------------

  /** A list of exactly the present listeners. */
  ghost predicate Lists(remote: seq<Listener>, m: map<ListenerId, Listener>) {
    && Distinct(remote)
    && (forall r :: r in remote ==> IdOf(r) in m && m[IdOf(r)] == r)
    && (forall id :: id in m ==> m[id] in remote && IdOf(m[id]) == id)
  }

  /** Listeners are kept under their own id. */
  ghost predicate KeptById(m: map<ListenerId, Listener>) { forall id :: id in m ==> IdOf(m[id]) == id }

  method DescribeListeners(cloud: ListenerCloud) returns (ok: bool, remote: seq<Listener>, stopped: set<ListenerId>)
    requires KeptById(cloud.listeners)
    modifies cloud`calls
    ensures ok ==> Lists(remote, cloud.listeners) && stopped == cloud.stopped
    ensures cloud.calls == old(cloud.calls) + 1 && (ok <==> !cloud.fault(old(cloud.calls)))
  {
    cloud.calls := cloud.calls + 1;
    if cloud.fault(cloud.calls - 1) { return false, [], {}; }
    ok, remote, stopped := true, [], cloud.stopped;
    var rest := cloud.listeners.Keys;
    while rest != {}
      invariant rest <= cloud.listeners.Keys && Distinct(remote)
      invariant forall r :: r in remote ==>
                IdOf(r) in cloud.listeners && cloud.listeners[IdOf(r)] == r && IdOf(r) !in rest
      invariant forall id :: id in cloud.listeners && id !in rest ==> cloud.listeners[id] in remote
    {
      var id :| id in rest;
      remote := remote + [cloud.listeners[id]];
      rest := rest - {id};
    }
  }

  lemma CountOfDistinct(s: seq<Listener>, x: Listener)
    requires Distinct(s)
    ensures multiset(s)[x] <= 1
  {
    if s != [] {
      var front, l := s[..|s| - 1], s[|s| - 1];
      assert s == front + [l];
      CountOfDistinct(front, x);
      assert forall j :: 0 <= j < |front| ==> IdOf(front[j]) != IdOf(l);
    }
  }

  lemma TwiceCounted(r: seq<Listener>, i: int, j: int)
    requires 0 <= i < j < |r| && r[i] == r[j]
    ensures multiset(r)[r[i]] >= 2
  {
    assert r == r[..j] + r[j..] && r[i] in r[..j] && r[j] in r[j..];
    assert multiset(r)[r[i]] == multiset(r[..j])[r[i]] + multiset(r[j..])[r[i]];
  }

  /** Rearranging keeps ids distinct. */
  lemma DistinctRearranged(s: seq<Listener>, r: seq<Listener>)
    requires Distinct(s) && multiset(r) == multiset(s)
    ensures Distinct(r) && Ids(r) == Ids(s) && forall l :: l in r <==> l in s
  {
    assert forall l :: l in r <==> l in multiset(r);
    assert forall l :: l in s <==> l in multiset(s);
    forall i, j | 0 <= i < j < |r|
      ensures IdOf(r[i]) != IdOf(r[j])
    {
      if r[i] == r[j] {
        TwiceCounted(r, i, j);
        CountOfDistinct(s, r[i]);
      } else {
        assert r[i] in s && r[j] in s;
      }
    }
  }

  lemma {:induction false} DistinctFiltered(p: Listener -> bool, s: seq<Listener>)
    requires Distinct(s)
    ensures Distinct(Filter(p, s))
  {
    if s != [] {
      var front, l := s[..|s| - 1], s[|s| - 1];
      DistinctFiltered(p, front);
      var f := Filter(p, front);
      forall i | 0 <= i < |f|
        ensures IdOf(f[i]) != IdOf(l)
      {
        assert f[i] in front;
        var j :| 0 <= j < |front| && front[j] == f[i];
        assert s[j] == f[i];
      }
    }
  }

  /** A listener whose description does not mark it as this owner's. */
  ghost predicate Another(r: Listener, owner: Owner) {
    forall port :: Spells(r.description, ClassicMark(port, owner), '/') ==> Atoi(port).None?
  }

  lemma AnotherIsNotManaged(r: Listener, owner: Owner)
    ensures Another(r, owner) <==> !IsManaged(r, owner)
  {
    ManagedIsMarked(r.description, owner);
  }

  /** The present listeners that are neither wanted nor the service's. */
  ghost function ForeignIds(m: map<ListenerId, Listener>, local: seq<Listener>, owner: Owner): set<ListenerId> {
    set id | id in m && id !in Ids(local) && Another(m[id], owner)
  }

  /** The deletions are the service's listeners that are not wanted, the creations the
      wanted ones that are absent. */
  lemma PlanByIds(m: map<ListenerId, Listener>, local: seq<Listener>, remote: seq<Listener>, owner: Owner)
    requires Lists(remote, m)
    ensures Ids(Filter(Unwanted(local, owner), remote)) == m.Keys - Ids(local) - ForeignIds(m, local, owner)
    ensures Ids(Filter(Absent(remote), local)) == Ids(local) - m.Keys
  {
    var del, add := Filter(Unwanted(local, owner), remote), Filter(Absent(remote), local);
    forall id
      ensures id in Ids(del) <==> id in m.Keys - Ids(local) - ForeignIds(m, local, owner)
      ensures id in Ids(add) <==> id in Ids(local) - m.Keys
    {
      if id in m { AnotherIsNotManaged(m[id], owner); }
      if id in m.Keys - Ids(local) - ForeignIds(m, local, owner) {
        assert m[id] in del;
      }
      if id in Ids(local) - m.Keys {
        var l :| l in local && IdOf(l) == id;
        assert l in add;
      }
    }
  }

  /** What a wanted listener should become. */
  function Wanted(l: Listener, before: map<ListenerId, Listener>): Listener {
    if IdOf(l) in before then Updated(l, before[IdOf(l)]) else Made(l)
  }

  /** What the listeners of a load balancer should become. */
  ghost predicate Applied(before: map<ListenerId, Listener>, after: map<ListenerId, Listener>,
                          local: seq<Listener>, owner: Owner) {
    && after.Keys == Ids(local) + ForeignIds(before, local, owner)
    && (forall id :: id in ForeignIds(before, local, owner) ==> after[id] == before[id])
    && (forall l :: l in local ==> IdOf(l) in after && after[IdOf(l)] == Wanted(l, before))
  }

  /** The listeners left by the deletions, and the creations, of a plan. */
  ghost predicate Midway(m0: map<ListenerId, Listener>, m1: map<ListenerId, Listener>, local: seq<Listener>,
                         owner: Owner, creates: seq<Listener>) {
    && m1.Keys == m0.Keys * Ids(local) + ForeignIds(m0, local, owner)
    && (forall id :: id in m1 ==> m1[id] == m0[id])
    && (forall l :: l in creates <==> l in local && IdOf(l) !in m0) && Distinct(creates)
  }

  lemma TouchedByPlan(m0: map<ListenerId, Listener>, local: seq<Listener>, remote: seq<Listener>, id: ListenerId)
    requires Lists(remote, m0)
    ensures Touched(Updates(local, remote), id) <==> id in m0 && id in Ids(local)
  {
    if id in m0 && id in Ids(local) {
      var l :| l in local && IdOf(l) == id;
      assert UpdateAction(l, m0[id]) in Updates(local, remote);
    }
  }

  lemma CreatedIds(m0: map<ListenerId, Listener>, local: seq<Listener>, creates: seq<Listener>)
    requires forall l :: l in creates <==> l in local && IdOf(l) !in m0
    ensures Ids(creates) == Ids(local) - m0.Keys
  {
    forall id | id in Ids(local) - m0.Keys
      ensures id in Ids(creates)
    {
      var l :| l in local && IdOf(l) == id;
      assert l in creates;
    }
  }

  lemma PlanIsPlanned(m0: map<ListenerId, Listener>, m1: map<ListenerId, Listener>, local: seq<Listener>,
                      remote: seq<Listener>,
                      owner: Owner, creates: seq<Listener>)
    requires Lists(remote, m0) && Distinct(local) && Midway(m0, m1, local, owner, creates)
    ensures Planned(Updates(local, remote), AddAll(m1, creates))
    ensures Ids(creates) !! m1.Keys && Ids(local) <= m1.Keys + Ids(creates)
    ensures AddAll(m1, creates).Keys == m1.Keys + Ids(creates)
  {
    UpdatesAreDistinct(local, remote);
    AddAllKeys(m1, creates);
    CreatedIds(m0, local, creates);
    forall u | u in Updates(local, remote)
      ensures IdOf(u.remote) in m1 && AddAll(m1, creates)[IdOf(u.remote)] == u.remote
    {
      assert IdOf(u.local) in Ids(local);
    }
  }

  /** The plan leaves the wanted ids and the foreign listeners. */
  lemma PlanLeaves(m0: map<ListenerId, Listener>, m1: map<ListenerId, Listener>, local: seq<Listener>,
                   remote: seq<Listener>,
                   owner: Owner, creates: seq<Listener>, id: ListenerId)
    requires Lists(remote, m0) && Midway(m0, m1, local, owner, creates)
    ensures var m3 := ReviseAll(AddAll(m1, creates), Updates(local, remote));
            && (id in m3 <==> id in Ids(local) || id in ForeignIds(m0, local, owner))
            && (id in ForeignIds(m0, local, owner) ==> m3[id] == m0[id])
  {
    var us, m2 := Updates(local, remote), AddAll(m1, creates);
    AddAllKeys(m1, creates);
    ReviseAllKeys(m2, us);
    CreatedIds(m0, local, creates);
    TouchedByPlan(m0, local, remote, id);
  }

  lemma WantedIsReached(m0: map<ListenerId, Listener>, m1: map<ListenerId, Listener>, local: seq<Listener>,
                        remote: seq<Listener>,
                        owner: Owner, creates: seq<Listener>, l: Listener)
    requires Lists(remote, m0) && Distinct(local) && Midway(m0, m1, local, owner, creates) && l in local
    ensures var m3 := ReviseAll(AddAll(m1, creates), Updates(local, remote));
            IdOf(l) in m3 && m3[IdOf(l)] == Wanted(l, m0)
  {
    var us, m2 := Updates(local, remote), AddAll(m1, creates);
    UpdatesAreDistinct(local, remote);
    if IdOf(l) in m0 {
      var u := UpdateAction(l, m0[IdOf(l)]);
      assert u in us;
      var i :| 0 <= i < |us| && us[i] == u;
      ReviseAllValues(m2, us, i);
    } else {
      var i :| 0 <= i < |creates| && creates[i] == l;
      AddAllValues(m1, creates, i);
      TouchedByPlan(m0, local, remote, IdOf(l));
      ReviseAllKeys(m2, us);
    }
  }

  /** Executing the plan gives what should become. */
  lemma PlanReaches(m0: map<ListenerId, Listener>, m1: map<ListenerId, Listener>, local: seq<Listener>,
                    remote: seq<Listener>,
                    owner: Owner, creates: seq<Listener>)
    requires Lists(remote, m0) && Distinct(local) && Midway(m0, m1, local, owner, creates)
    ensures Applied(m0, ReviseAll(AddAll(m1, creates), Updates(local, remote)), local, owner)
  {
    var m3 := ReviseAll(AddAll(m1, creates), Updates(local, remote));
    forall id
      ensures id in m3 <==> id in Ids(local) + ForeignIds(m0, local, owner)
      ensures id in ForeignIds(m0, local, owner) ==> m3[id] == m0[id]
    {
      PlanLeaves(m0, m1, local, remote, owner, creates, id);
    }
    forall l | l in local
      ensures IdOf(l) in m3 && m3[IdOf(l)] == Wanted(l, m0)
    {
      WantedIsReached(m0, m1, local, remote, owner, creates, l);
    }
  }

  /** No listener that is neither wanted nor the service's has changed. */
  ghost predicate ForeignKept(before: map<ListenerId, Listener>, after: map<ListenerId, Listener>,
                              local: seq<Listener>, owner: Owner) {
    forall id :: id in ForeignIds(before, local, owner) ==> id in after && after[id] == before[id]
  }

  /** Before an unwanted listener is deleted there are only deletions, and none of an HTTPS
      listener unless it is one itself. */
  ghost predicate DeletedInOrder(log: seq<Event>, from: nat, local: seq<Listener>) {
    from <= |log| && forall i, j :: from <= i < j < |log| && log[j].DeleteCall? && log[j].id !in Ids(local) ==>
      log[i].DeleteCall? && (log[i].id.protocol.HTTPS? ==> log[j].id.protocol.HTTPS?)
  }

  /** Creations with HTTPS first, deletions with HTTPS last. */
  method SortActions(creates: seq<Listener>, deletes: seq<Listener>)
    returns (creates': seq<Listener>, deletes': seq<Listener>)
    requires Distinct(creates) && Distinct(deletes)
    ensures Distinct(creates') && Ids(creates') == Ids(creates) && forall l :: l in creates' <==> l in creates
    ensures Distinct(deletes') && Ids(deletes') == Ids(deletes) && forall l :: l in deletes' <==> l in deletes
    ensures forall i, j :: 0 <= i < j < |creates'| && creates'[j].protocol.HTTPS? ==> creates'[i].protocol.HTTPS?
    ensures forall i, j :: 0 <= i < j < |deletes'| && !deletes'[j].protocol.HTTPS? ==> !deletes'[i].protocol.HTTPS?
  {
    creates' := SliceStable(creates, (l: Listener) => l.protocol.HTTPS?);
    deletes' := SliceStable(deletes, (l: Listener) => !l.protocol.HTTPS?);
    DistinctRearranged(creates, creates');
    DistinctRearranged(deletes, deletes');
  }

  /** The deletion round of a plan. */
  method DeletionRound(cloud: ListenerCloud, deletes: seq<Listener>, ghost local: seq<Listener>, ghost owner: Owner)
    returns (ok: bool)
    requires Distinct(deletes)
             && Ids(deletes) == cloud.listeners.Keys - Ids(local) - ForeignIds(cloud.listeners, local, owner)
    requires forall i, j :: 0 <= i < j < |deletes| && !deletes[j].protocol.HTTPS? ==> !deletes[i].protocol.HTTPS?
    modifies cloud
    ensures old(cloud.log) <= cloud.log && GoodEvents(cloud.log, |old(cloud.log)|, local)
    ensures DeletedInOrder(cloud.log, |old(cloud.log)|, local)
    ensures ForeignKept(old(cloud.listeners), cloud.listeners, local, owner)
    ensures ok ==>
              cloud.listeners.Keys
              == old(cloud.listeners).Keys * Ids(local) + ForeignIds(old(cloud.listeners), local, owner)
    ensures ok ==>
              && cloud.stopped <= old(cloud.stopped)
              && forall id :: id in cloud.listeners ==> cloud.listeners[id] == old(cloud.listeners)[id]
    ensures (forall n :: !cloud.fault(n)) ==> ok
    ensures deletes == [] ==> ok && cloud.Traces() == old(cloud.Traces())
  {
    ok := ExecuteDeletes(cloud, deletes);
  }

  /** The creation and update rounds of a plan. */
  method OtherRounds(cloud: ListenerCloud, local: seq<Listener>, remote: seq<Listener>, stopped: set<ListenerId>,
                     creates: seq<Listener>, updates: seq<UpdateAction>, ghost owner: Owner,
                     ghost m0: map<ListenerId, Listener>)
    returns (ok: bool)
    requires Lists(remote, m0) && Distinct(local) && Midway(m0, cloud.listeners, local, owner, creates)
    requires forall i, j :: 0 <= i < j < |creates| && creates[j].protocol.HTTPS? ==> creates[i].protocol.HTTPS?
    requires updates == Updates(local, remote) && cloud.stopped <= stopped <= m0.Keys
    modifies cloud
    ensures old(cloud.log) <= cloud.log && GoodEvents(cloud.log, |old(cloud.log)|, local)
    ensures DeletesWanted(cloud.log, |old(cloud.log)|, local)
    ensures ForeignKept(m0, cloud.listeners, local, owner)
    ensures ok ==> Applied(m0, cloud.listeners, local, owner) && Ids(local) !! cloud.stopped
    ensures (forall n :: !cloud.fault(n)) && (forall l :: l in local ==> !l.protocol.OtherProtocol?) ==> ok
    ensures creates == [] && AllFixed(updates, stopped) ==> ok && cloud.Traces() == old(cloud.Traces())
  {
    ghost var m1 := cloud.listeners;
    PlanIsPlanned(m0, m1, local, remote, owner, creates);
    ok := ExecuteCreates(cloud, creates, local);
    if !ok { return; }
    PlanReaches(m0, m1, local, remote, owner, creates);
    assert forall id :: id in ForeignIds(m0, local, owner) ==> !Touched(updates, id) by {
      forall id { TouchedByPlan(m0, local, remote, id); }
    }
    ghost var mid := cloud.log;
    ok := ExecuteUpdates(cloud, updates, stopped, local);
    EventsJoin(|old(cloud.log)|, mid, cloud.log, local);
    if ok { NoneIsStopped(m0, local, remote, cloud.stopped); }
  }

  lemma EventsJoin(from: nat, mid: seq<Event>, log: seq<Event>, local: seq<Listener>)
    requires mid <= log && GoodEvents(mid, from, local) && DeletesWanted(mid, from, local)
    requires GoodEvents(log, |mid|, local) && DeletesWanted(log, |mid|, local)
    ensures GoodEvents(log, from, local) && DeletesWanted(log, from, local)
  {
    forall i | from <= i < |log|
      ensures GoodEvent(log[i], local) && (log[i].DeleteCall? ==> log[i].id in Ids(local))
    {
      if i < |mid| { assert log[i] == mid[i]; }
    }
  }

  /** Updates start what was stopped; the rest was never stopped. */
  lemma NoneIsStopped(m0: map<ListenerId, Listener>, local: seq<Listener>, remote: seq<Listener>,
                      stopped: set<ListenerId>)
    requires Lists(remote, m0) && stopped <= m0.Keys
    requires forall u :: u in Updates(local, remote) ==> IdOf(u.remote) !in stopped
    ensures Ids(local) !! stopped
  {
    forall id | id in Ids(local)
      ensures id !in stopped
    {
      TouchedByPlan(m0, local, remote, id);
    }
  }

  /** The listeners are as wanted, and every wanted one is left alone by an update. */
  ghost predicate Settled(m: map<ListenerId, Listener>, stopped: set<ListenerId>, local: seq<Listener>, owner: Owner) {
    && (forall l :: l in local ==>
          IdOf(l) in m && Fixed(l, m[IdOf(l)]) && IdOf(l) !in stopped && !l.protocol.OtherProtocol?)
    && (forall id :: id in m ==> id in Ids(local) || Another(m[id], owner))
  }

  /** An update that skips a listener, since it forwards as wanted, leaves its description. */
  predicate KeepsDescription(l: Listener, before: map<ListenerId, Listener>) {
    l.protocol.HTTP? && IdOf(l) in before && !NeedsRecreate(l, before[IdOf(l)]) && before[IdOf(l)].listenerForward == ON
  }

  /** The wanted listeners that were the user's and are still described as such. */
  ghost function StillUsers(before: map<ListenerId, Listener>, local: seq<Listener>, owner: Owner): set<ListenerId> {
    set l | l in local && KeepsDescription(l, before) && Another(before[IdOf(l)], owner) :: IdOf(l)
  }

  lemma WantedDescription(l: Listener, before: map<ListenerId, Listener>)
    ensures Wanted(l, before).description
         == if KeepsDescription(l, before) then before[IdOf(l)].description else l.description
  {
  }

  /** What a later apply with other wanted listeners spares: of the listeners left by this one,
      the foreign ones, and those that it took over from the user without a new description;
      the other taken over ones are deleted as the service's own. */
  lemma LaterSpares(before: map<ListenerId, Listener>, after: map<ListenerId, Listener>, local: seq<Listener>,
                    later: seq<Listener>, owner: Owner)
    requires Applied(before, after, local, owner) && Distinct(local)
    requires forall l :: l in local ==> !Another(l, owner)
    ensures ForeignIds(after, later, owner)
         == ForeignIds(before, local, owner) + StillUsers(before, local, owner) - Ids(later)
  {
    forall id | id in after
      ensures Another(after[id], owner)
              <==> id in ForeignIds(before, local, owner) + StillUsers(before, local, owner)
    {
      if id in Ids(local) {
        var l :| l in local && IdOf(l) == id;
        WantedDescription(l, before);
        OneOfAnId(local, l);
      }
    }
    forall id | id in StillUsers(before, local, owner)
      ensures id in after
    {
      var l :| l in local && IdOf(l) == id;
    }
  }

  lemma OneOfAnId(s: seq<Listener>, l: Listener)
    requires Distinct(s) && l in s
    ensures forall x :: x in s && IdOf(x) == IdOf(l) ==> x == l
  {
    forall x | x in s && IdOf(x) == IdOf(l)
      ensures x == l
    {
      var i, j :| 0 <= i < |s| && s[i] == x && 0 <= j < |s| && s[j] == l;
    }
  }

  /** What a successful apply leaves is settled, when forwarding is marked as it is built. */
  lemma AppliedIsSettled(before: map<ListenerId, Listener>, after: map<ListenerId, Listener>, stopped: set<ListenerId>,
                         local: seq<Listener>, owner: Owner)
    requires Applied(before, after, local, owner) && Ids(local) !! stopped
    requires forall l :: l in local ==> !l.protocol.OtherProtocol? && (l.protocol.HTTP? ==> ForwardIsMarked(l))
    ensures Settled(after, stopped, local, owner)
  {
    forall l | l in local
      ensures IdOf(l) in after && Fixed(l, after[IdOf(l)]) && IdOf(l) !in stopped
    {
      CreatedIsFixed(l);
      if IdOf(l) in before { UpdatedIsFixed(l, before[IdOf(l)]); }
      assert IdOf(l) in Ids(local);
    }
  }

  /** Forwarding to the port asked for, or not at all. */
  ghost predicate ForwardsAsAsked(l: Listener, r: Listener) {
    if l.forwardPort != 0 then r.listenerForward == "on" && r.forwardPort == l.forwardPort
    else r.listenerForward == "off"
  }

  lemma MadeForwards(l: Listener)
    requires l.protocol.HTTP? && ForwardIsMarked(l)
    ensures ForwardsAsAsked(l, Made(l))
  {
    DefaultsFillIn(l, Scheduler);
  }

  lemma UpdatedForwards(l: Listener, r: Listener)
    requires l.protocol.HTTP? && ForwardIsMarked(l)
    ensures ForwardsAsAsked(l, Updated(l, r))
  {
    MadeForwards(Recreated(l));
  }

  /** A wanted HTTP listener whose forwarding is marked ends forwarding to the port it asks for,
      and one that asks for none ends without forwarding. */
  lemma AppliedForwards(before: map<ListenerId, Listener>, after: map<ListenerId, Listener>, local: seq<Listener>,
                        owner: Owner, l: Listener)
    requires Applied(before, after, local, owner) && l in local && l.protocol.HTTP? && ForwardIsMarked(l)
    ensures IdOf(l) in after && ForwardsAsAsked(l, after[IdOf(l)])
  {
    MadeForwards(l);
    if IdOf(l) in before { UpdatedForwards(l, before[IdOf(l)]); }
  }

  /** A listener as it was asked for: its description, its group, and what it sets. */
  ghost predicate AsAsked(l: Listener, r: Listener) {
    r.description == l.description && r.vGroupId == l.vGroupId && forall f :: f in l.settings ==> Get(f, r) == Get(f, l)
  }

  lemma MadeIsAsAsked(l: Listener)
    ensures AsAsked(l, Made(l))
  {
    forall f | f in l.settings
      ensures Get(f, Made(l)) == Get(f, l)
    {
      DefaultsFillIn(l, f);
    }
  }

  /** What a wanted listener sets and its protocol has is there in the end, but for what an update
      ignores; so are its group and description, unless it was left alone for forwarding. */
  lemma AppliedAttributes(before: map<ListenerId, Listener>, after: map<ListenerId, Listener>, local: seq<Listener>,
                          owner: Owner, l: Listener)
    requires Applied(before, after, local, owner) && l in local && !KeepsDescription(l, before)
    ensures IdOf(l) in after
    ensures var r := after[IdOf(l)];
            if IdOf(l) in before && (l.protocol.HTTP? ==> !NeedsRecreate(l, before[IdOf(l)])) then
              && r.description == l.description && r.vGroupId == l.vGroupId
              && forall f :: f in l.settings && Applicable(f, l.protocol) && Enabled(f, l, before[IdOf(l)]) ==>
                   Get(f, r) == Get(f, l)
            else AsAsked(l, r)
  {
    if IdOf(l) in before && (l.protocol.HTTP? ==> !NeedsRecreate(l, before[IdOf(l)])) {
      forall f { UpdateBySetting(l, before[IdOf(l)], f); }
    } else {
      MadeIsAsAsked(l);
      MadeIsAsAsked(Recreated(l));
    }
  }

  lemma SomeIn(s: seq<Listener>)
    ensures s == [] || exists l :: l in s
  {
    if s != [] { assert s[0] in s; }
  }

  lemma SettledPlan(m: map<ListenerId, Listener>, stopped: set<ListenerId>, local: seq<Listener>,
                    remote: seq<Listener>, owner: Owner,
                    creates: seq<Listener>, updates: seq<UpdateAction>, deletes: seq<Listener>)
    requires Settled(m, stopped, local, owner) && Lists(remote, m) && updates == Updates(local, remote)
    requires forall l :: l in creates <==> l in local && IdOf(l) !in m
    requires Ids(deletes) == m.Keys - Ids(local) - ForeignIds(m, local, owner)
    ensures creates == [] && deletes == [] && AllFixed(updates, stopped)
  {
    SomeIn(creates);
    SomeIn(deletes);
    forall l ensures l !in deletes { assert l in deletes ==> IdOf(l) in Ids(deletes); }
  }

  /** Applying the wanted listeners. A reused load balancer is left alone unless overriding
      is forced. Whatever fails: no foreign listener is touched, no creation is asked for an
      id that is taken, a listener forwarding to a wanted HTTPS listener is created only when
      that one is there, and unwanted listeners are deleted before anything is created, the
      HTTPS listeners after all others. On success the listeners are exactly the wanted ones and the
      foreign ones, the wanted ones are as asked for, and none of them is stopped. */
  method ApplyListeners(cloud: ListenerCloud, local: seq<Listener>, owner: Owner, reusedLb: bool, forceOverride: bool)
    returns (ok: bool)
    requires Distinct(local) && KeptById(cloud.listeners) && cloud.stopped <= cloud.listeners.Keys
    modifies cloud
    ensures reusedLb && !forceOverride ==> ok && cloud.listeners == old(cloud.listeners) && cloud.log == old(cloud.log)
    ensures old(cloud.log) <= cloud.log && GoodEvents(cloud.log, |old(cloud.log)|, local)
    ensures DeletedInOrder(cloud.log, |old(cloud.log)|, local)
    ensures ForeignKept(old(cloud.listeners), cloud.listeners, local, owner)
    ensures ok && (!reusedLb || forceOverride) ==>
              Applied(old(cloud.listeners), cloud.listeners, local, owner) && Ids(local) !! cloud.stopped
    ensures (forall n :: !cloud.fault(n)) && (forall l :: l in local ==> !l.protocol.OtherProtocol?) ==> ok
    ensures Settled(old(cloud.listeners), old(cloud.stopped), local, owner) ==>
              && cloud.Traces() == (old(cloud.listeners), old(cloud.stopped), cloud.calls, old(cloud.log))
              && cloud.calls <= old(cloud.calls) + 1
  {
    ok := true;
    if reusedLb && !forceOverride { return; }
    ghost var m0 := cloud.listeners;
    var remote, stopped;
    ok, remote, stopped := DescribeListeners(cloud);
    if !ok { return; }
    var creates, updates, deletes := PlanActions(local, remote, owner, m0);
    if Settled(m0, cloud.stopped, local, owner) {
      SettledPlan(m0, cloud.stopped, local, remote, owner, creates, updates, deletes);
    }
    ok := DeletionRound(cloud, deletes, local, owner);
    if !ok { return; }
    ok := OtherRounds(cloud, local, remote, stopped, creates, updates, owner, m0);
  }

  /** The plan, sorted. */
  method PlanActions(local: seq<Listener>, remote: seq<Listener>, owner: Owner, ghost m0: map<ListenerId, Listener>)
    returns (creates: seq<Listener>, updates: seq<UpdateAction>, deletes: seq<Listener>)
    requires Distinct(local) && Lists(remote, m0)
    ensures Distinct(creates) && forall l :: l in creates <==> l in local && IdOf(l) !in m0
    ensures Distinct(deletes) && Ids(deletes) == m0.Keys - Ids(local) - ForeignIds(m0, local, owner)
    ensures updates == Updates(local, remote)
    ensures forall i, j :: 0 <= i < j < |creates| && creates[j].protocol.HTTPS? ==> creates[i].protocol.HTTPS?
    ensures forall i, j :: 0 <= i < j < |deletes| && !deletes[j].protocol.HTTPS? ==> !deletes[i].protocol.HTTPS?
  {
    creates, updates, deletes := BuildActions(local, remote, owner);
    PlanByIds(m0, local, remote, owner);
    AbsentMeansNew(m0, local, remote, creates);
    DistinctFiltered(Absent(remote), local);
    DistinctFiltered(Unwanted(local, owner), remote);
    creates, deletes := SortActions(creates, deletes);
  }

  lemma AbsentMeansNew(m0: map<ListenerId, Listener>, local: seq<Listener>, remote: seq<Listener>,
                       creates: seq<Listener>)
    requires Lists(remote, m0) && creates == Filter(Absent(remote), local)
    ensures forall l :: l in creates <==> l in local && IdOf(l) !in m0
  {}
}
