/** The virtual server groups of a classic load balancer as the cloud keeps them, the
    batched backend calls, and the reconciliation of one group. */
module SlbGroups {
  import opened Common
  import opened NamedKeys
  import opened Backends

  datatype CallResult = Ok | OverLimit | Failed

  datatype VGroup = VGroup(name: string, backends: Group)

  /** A server group in the controller's local or remote model; id 0 is "no id yet". */
  datatype VServerGroup = VServerGroup(id: nat, name: string, isUserManaged: bool, backends: seq<Backend>)

  /** Everything but the backends of one group stays the same. */
  ghost predicate OnlyGroup(before: map<nat, VGroup>, after: map<nat, VGroup>, id: nat) {
    && before.Keys == after.Keys
    && (forall i :: i in before && i != id ==> after[i] == before[i])
    && (id in before ==> after[id].name == before[id].name)
  }

  /** The backends of a group; an absent group has none. */
  function BackendsOf(groups: map<nat, VGroup>, id: nat): Group {
    if id in groups then groups[id].backends else map[]
  }

  function WithBackends(groups: map<nat, VGroup>, id: nat, g: Group): (r: map<nat, VGroup>)
    requires id in groups
    ensures OnlyGroup(groups, r, id) && BackendsOf(r, id) == g
  {
    groups[id := groups[id].(backends := g)]
  }

  /** The cloud. Its n-th call fails when `fault(n)`. A call on backends takes effect as a
      whole or not at all, and no group may exceed the quota. */
  class SlbCloud {
    var groups: map<nat, VGroup>
    var nextId: nat
    var calls: nat
    const fault: nat -> bool
    const quota: nat
    ghost var createdNames: seq<string>

    ghost predicate Valid()
      reads this
    {
      nextId > 0 && forall id :: id in groups ==> 0 < id < nextId
    }

    constructor (groups: map<nat, VGroup>, nextId: nat, fault: nat -> bool, quota: nat)
      requires nextId > 0 && forall id :: id in groups ==> 0 < id < nextId
      ensures Valid() && this.groups == groups && this.fault == fault && this.quota == quota && createdNames == []
    {
      this.groups, this.nextId, this.fault, this.quota := groups, nextId, fault, quota;
      calls, createdNames := 0, [];
    }

    method AddBackends(id: nat, s: seq<Backend>) returns (r: CallResult)
      modifies this`groups, this`calls
      ensures calls == old(calls) + 1
      ensures OnlyGroup(old(groups), groups, id)
      ensures BackendsOf(groups, id) == if r.Ok? then Upsert(BackendsOf(old(groups), id), s)
              else BackendsOf(old(groups), id)
      ensures r.Failed? <==> fault(old(calls)) || id !in groups
      ensures r.Ok? ==> |BackendsOf(groups, id)| <= quota
      ensures r.OverLimit? ==> |Upsert(BackendsOf(groups, id), s)| > quota
    {
      calls := calls + 1;
      if fault(calls - 1) || id !in groups { return Failed; }
      var g := Upsert(groups[id].backends, s);
      if |g| > quota { return OverLimit; }
      groups := WithBackends(groups, id, g);
      return Ok;
    }

    method RemoveBackends(id: nat, s: seq<Backend>) returns (r: CallResult)
      modifies this`groups, this`calls
      ensures calls == old(calls) + 1
      ensures OnlyGroup(old(groups), groups, id)
      ensures BackendsOf(groups, id) == if r.Ok? then Remove(BackendsOf(old(groups), id), s)
              else BackendsOf(old(groups), id)
      ensures r.Ok? <==> !fault(old(calls)) && id in groups
    {
      calls := calls + 1;
      if fault(calls - 1) || id !in groups { return Failed; }
      groups := WithBackends(groups, id, Remove(groups[id].backends, s));
      return Ok;
    }

    method SetBackendAttributes(id: nat, s: seq<Backend>) returns (r: CallResult)
      modifies this`groups, this`calls
      ensures calls == old(calls) + 1
      ensures OnlyGroup(old(groups), groups, id)
      ensures BackendsOf(groups, id) == if r.Ok? then SetAttributes(BackendsOf(old(groups), id), s)
              else BackendsOf(old(groups), id)
      ensures r.Ok? <==> !fault(old(calls)) && id in groups
    {
      calls := calls + 1;
      if fault(calls - 1) || id !in groups { return Failed; }
      groups := WithBackends(groups, id, SetAttributes(groups[id].backends, s));
      return Ok;
    }
  }

  // ---- batches -----------------------------------------------------------------------

  lemma ChunkAppends(s: seq<Backend>, begin: nat, end: nat)
    requires begin <= end <= |s|
    ensures s[..end] == s[..begin] + s[begin..end]
    ensures forall b :: b in s[begin..end] ==> b in s
  {}

  lemma SmallerMap(g: Group, keys: set<BackendKey>)
    requires g.Keys <= keys
    ensures |g| <= |keys|
  {
    SmallerSet(g.Keys, keys);
  }

  lemma {:induction false} SmallerSet<T>(x: set<T>, y: set<T>)
    requires x <= y
    ensures |x| <= |y|
  {
    if x != {} {
      var e :| e in x;
      SmallerSet(x - {e}, y - {e});
    }
  }

  /** No call fails, and the group is there. */
  ghost predicate Smooth(cloud: SlbCloud, id: nat)
    reads cloud
  {
    id in cloud.groups && forall n :: !cloud.fault(n)
  }

  function Keys(s: seq<Backend>): set<BackendKey> { set b | b in s :: KeyOf(b) }

  /** What is known while a list is added, of which the first `begin` were tried: smooth says that
      no call fails, and what was met is the quota. */
  ghost predicate Adding(before: map<nat, VGroup>, after: map<nat, VGroup>, id: nat, s: seq<Backend>, begin: nat,
                         smooth: bool, quota: nat, errs: seq<CallResult>) {
    var g0, g := BackendsOf(before, id), BackendsOf(after, id);
    && begin <= |s| && OnlyGroup(before, after, id) && Evolves(g0, g, s, [])
    && (errs == [] ==> g == Upsert(g0, s[..begin]))
    && (smooth ==> id in before && forall e :: e in errs ==> e.OverLimit?)
    && (smooth && |g0.Keys + Keys(s)| <= quota ==> errs == [])
  }

  /** Adding a list chunk by chunk; a failed chunk does not stop the later ones. */
  method BatchAdd(cloud: SlbCloud, id: nat, s: seq<Backend>, batchSize: int) returns (errs: seq<CallResult>)
    modifies cloud`groups, cloud`calls
    ensures OnlyGroup(old(cloud.groups), cloud.groups, id)
    ensures Evolves(BackendsOf(old(cloud.groups), id), BackendsOf(cloud.groups, id), s, [])
    ensures errs == [] ==> BackendsOf(cloud.groups, id) == Upsert(BackendsOf(old(cloud.groups), id), s)
    ensures old(Smooth(cloud, id)) ==> forall e :: e in errs ==> e.OverLimit?
    ensures old(Smooth(cloud, id)) && |BackendsOf(old(cloud.groups), id).Keys + Keys(s)| <= cloud.quota ==> errs == []
    ensures cloud.calls == old(cloud.calls) + Chunks(0, |s|, batchSize)
  {
    errs := [];
    var begin := 0;
    ghost var before, smooth := cloud.groups, Smooth(cloud, id);
    while begin < |s|
      invariant Adding(before, cloud.groups, id, s, begin, smooth, cloud.quota, errs)
      invariant cloud.calls + Chunks(begin, |s|, batchSize) == old(cloud.calls) + Chunks(0, |s|, batchSize)
    {
      var end := ChunkEnd(begin, |s|, batchSize);
      errs := AddChunk(cloud, id, s, begin, end, errs, before, smooth);
      begin := end;
    }
    assert s[..|s|] == s;
  }

  method AddChunk(cloud: SlbCloud, id: nat, s: seq<Backend>, begin: nat, end: nat, errs: seq<CallResult>,
                  ghost before: map<nat, VGroup>, ghost smooth: bool)
    returns (errs': seq<CallResult>)
    requires begin <= end <= |s| && (smooth ==> forall n :: !cloud.fault(n))
    requires Adding(before, cloud.groups, id, s, begin, smooth, cloud.quota, errs)
    modifies cloud`groups, cloud`calls
    ensures Adding(before, cloud.groups, id, s, end, smooth, cloud.quota, errs')
    ensures cloud.calls == old(cloud.calls) + 1
  {
    AddedChunk(BackendsOf(before, id), BackendsOf(cloud.groups, id), s, begin, end);
    var r := cloud.AddBackends(id, s[begin..end]);
    errs' := if r.Ok? then errs else errs + [r];
  }

  /** One more chunk. */
  lemma AddedChunk(g0: Group, g: Group, s: seq<Backend>, begin: nat, end: nat)
    requires begin <= end <= |s| && Evolves(g0, g, s, [])
    ensures var g' := Upsert(g, s[begin..end]);
            && Evolves(g0, g', s, []) && |g'| <= |g0.Keys + Keys(s)|
            && (g == Upsert(g0, s[..begin]) ==> g' == Upsert(g0, s[..end]))
  {
    ChunkAppends(s, begin, end);
    UpsertConcat(g0, s[..begin], s[begin..end]);
    AddRoom(g0, g, s, s[begin..end]);
  }

  /** A partly extended group stays within the keys it may come to have. */
  lemma AddRoom(g0: Group, g: Group, s: seq<Backend>, chunk: seq<Backend>)
    requires Evolves(g0, g, s, []) && (forall b :: b in chunk ==> b in s)
    ensures |Upsert(g, chunk)| <= |g0.Keys + Keys(s)|
    ensures Evolves(g0, Upsert(g, chunk), s, [])
  {
    UpsertEvolves(g, chunk);
    EvolvesWeaken(g, Upsert(g, chunk), chunk, [], s, []);
    EvolvesTransitive(g0, g, Upsert(g, chunk), s, []);
    SmallerMap(Upsert(g, chunk), g0.Keys + Keys(s));
  }

  method BatchRemove(cloud: SlbCloud, id: nat, s: seq<Backend>, batchSize: int) returns (errs: seq<CallResult>)
    modifies cloud`groups, cloud`calls
    ensures cloud.calls == old(cloud.calls) + Chunks(0, |s|, batchSize)
    ensures OnlyGroup(old(cloud.groups), cloud.groups, id)
    ensures Evolves(BackendsOf(old(cloud.groups), id), BackendsOf(cloud.groups, id), [], s)
    ensures old(Smooth(cloud, id)) ==> errs == []
    ensures errs == [] ==> BackendsOf(cloud.groups, id) == Remove(BackendsOf(old(cloud.groups), id), s)
  {
    errs := [];
    var begin := 0;
    ghost var g0 := BackendsOf(cloud.groups, id);
    while begin < |s|
      invariant begin <= |s|
      invariant cloud.calls + Chunks(begin, |s|, batchSize) == old(cloud.calls) + Chunks(0, |s|, batchSize)
      invariant OnlyGroup(old(cloud.groups), cloud.groups, id)
      invariant Evolves(g0, BackendsOf(cloud.groups, id), [], s)
      invariant old(Smooth(cloud, id)) ==> errs == []
      invariant errs == [] ==> BackendsOf(cloud.groups, id) == Remove(g0, s[..begin])
    {
      var end := ChunkEnd(begin, |s|, batchSize);
      ChunkAppends(s, begin, end);
      ghost var g, chunk := BackendsOf(cloud.groups, id), s[begin..end];
      RemoveConcat(g0, s[..begin], chunk);
      RemoveEvolves(g, chunk);
      EvolvesWeaken(g, Remove(g, chunk), [], chunk, [], s);
      EvolvesTransitive(g0, g, Remove(g, chunk), [], s);
      var r := cloud.RemoveBackends(id, s[begin..end]);
      if !r.Ok? { errs := errs + [r]; }
      begin := end;
    }
    assert s[..|s|] == s;
  }

  method BatchUpdate(cloud: SlbCloud, id: nat, s: seq<Backend>, batchSize: int) returns (errs: seq<CallResult>)
    modifies cloud`groups, cloud`calls
    ensures cloud.calls == old(cloud.calls) + Chunks(0, |s|, batchSize)
    ensures OnlyGroup(old(cloud.groups), cloud.groups, id)
    ensures Evolves(BackendsOf(old(cloud.groups), id), BackendsOf(cloud.groups, id), s, [])
    ensures old(Smooth(cloud, id)) ==> errs == []
    ensures errs == [] ==> BackendsOf(cloud.groups, id) == SetAttributes(BackendsOf(old(cloud.groups), id), s)
    ensures BackendsOf(cloud.groups, id).Keys == BackendsOf(old(cloud.groups), id).Keys
  {
    errs := [];
    var begin := 0;
    ghost var g0 := BackendsOf(cloud.groups, id);
    while begin < |s|
      invariant begin <= |s|
      invariant cloud.calls + Chunks(begin, |s|, batchSize) == old(cloud.calls) + Chunks(0, |s|, batchSize)
      invariant OnlyGroup(old(cloud.groups), cloud.groups, id)
      invariant Evolves(g0, BackendsOf(cloud.groups, id), s, [])
      invariant old(Smooth(cloud, id)) ==> errs == []
      invariant errs == [] ==> BackendsOf(cloud.groups, id) == SetAttributes(g0, s[..begin])
      invariant BackendsOf(cloud.groups, id).Keys == g0.Keys
    {
      var end := ChunkEnd(begin, |s|, batchSize);
      ChunkAppends(s, begin, end);
      ghost var g, chunk := BackendsOf(cloud.groups, id), s[begin..end];
      SetAttributesConcat(g0, s[..begin], chunk);
      SetAttributesEvolves(g, chunk);
      SetAttributesKeys(g, chunk);
      EvolvesWeaken(g, SetAttributes(g, chunk), chunk, [], s, []);
      EvolvesTransitive(g0, g, SetAttributes(g, chunk), s, []);
      var r := cloud.SetBackendAttributes(id, s[begin..end]);
      if !r.Ok? { errs := errs + [r]; }
      begin := end;
    }
    assert s[..|s|] == s;
  }

  // ---- one group ------------------------------------------------------------------------

  /** The facts under which the calls for a group with remote description `remote` end in the
      desired group. */
  ghost predicate Reachable(g: Group, local: seq<Backend>, remote: seq<Backend>, owner: Owner) {
    Describes(remote, g, owner) && Unshadowed(g, local, owner) && Consistent(local)
  }

  /** ... and the quota does not stand in the way. */
  ghost predicate Reconcilable(g: Group, local: seq<Backend>, remote: seq<Backend>, owner: Owner, quota: nat) {
    Reachable(g, local, remote, owner) && |Desired(g, local, owner)| <= quota
  }

  /** The retried additions fit: they end in the desired group. */
  lemma RetryFits(g: Group, local: seq<Backend>, remote: seq<Backend>, owner: Owner, quota: nat, g1: Group)
    requires Reconcilable(g, local, remote, owner, quota)
    requires Evolves(g, g1, Additions(remote, local), [])
    ensures var add := Additions(remote, local);
            var g3 := SetAttributes(Remove(g1, Deletions(remote, local)), Updates(remote, local));
            |g3.Keys + Keys(add)| <= quota && Upsert(g3, add) == Desired(g, local, owner)
  {
    var add := Additions(remote, local);
    var g3 := SetAttributes(Remove(g1, Deletions(remote, local)), Updates(remote, local));
    Converges(g, local, remote, owner, g1);
    UpsertKeys(g3, add);
    assert Upsert(g3, add).Keys == g3.Keys + Keys(add);
  }

  lemma FirstPassEvolves(g0: Group, g1: Group, g2: Group, g3: Group,
                         add: seq<Backend>, del: seq<Backend>, upd: seq<Backend>, local: seq<Backend>)
    requires Evolves(g0, g1, add, []) && Evolves(g1, g2, [], del) && Evolves(g2, g3, upd, [])
    requires (forall b :: b in add ==> b in local) && (forall b :: b in upd ==> b in local)
    ensures Evolves(g0, g3, local, del)
  {
    EvolvesWeaken(g0, g1, add, [], local, del);
    EvolvesWeaken(g1, g2, [], del, local, del);
    EvolvesWeaken(g2, g3, upd, [], local, del);
    EvolvesTransitive(g0, g1, g2, local, del);
    EvolvesTransitive(g0, g2, g3, local, del);
  }

  lemma RetryEvolves(g0: Group, g3: Group, g4: Group, add: seq<Backend>, del: seq<Backend>, local: seq<Backend>)
    requires Evolves(g0, g3, local, del) && Evolves(g3, g4, add, []) && (forall b :: b in add ==> b in local)
    ensures Evolves(g0, g4, local, del)
  {
    EvolvesWeaken(g3, g4, add, [], local, del);
    EvolvesTransitive(g0, g3, g4, local, del);
  }

  /** The first additions: running into the quota asks for a retry instead of being an error. */
  method TryAdd(cloud: SlbCloud, id: nat, add: seq<Backend>, batchSize: int)
    returns (errs: seq<CallResult>, retryAdd: bool)
    modifies cloud`groups, cloud`calls
    ensures OnlyGroup(old(cloud.groups), cloud.groups, id)
    ensures Evolves(BackendsOf(old(cloud.groups), id), BackendsOf(cloud.groups, id), add, [])
    ensures errs == [] && !retryAdd ==> BackendsOf(cloud.groups, id) == Upsert(BackendsOf(old(cloud.groups), id), add)
    ensures old(Smooth(cloud, id)) ==>
              && errs == []
              && (|BackendsOf(old(cloud.groups), id).Keys + Keys(add)| <= cloud.quota ==> !retryAdd)
  {
    errs, retryAdd := [], false;
    if |add| > 0 {
      var e := BatchAdd(cloud, id, add, batchSize);
      if OverLimit in e { retryAdd := true; } else { errs := e; }
      assert old(Smooth(cloud, id)) && !retryAdd ==> e == [] by {
        if e != [] { assert e[0] in e; }
      }
    }
  }

  /** The first round of calls: add, remove, update. Hitting the quota asks for a retry of
      the additions instead of being an error. `g1` is the group between add and remove. */
  method FirstPass(cloud: SlbCloud, id: nat, local: seq<Backend>, add: seq<Backend>, del: seq<Backend>,
                   update: seq<Backend>, batchSize: int)
    returns (errs: seq<CallResult>, retryAdd: bool, ghost g1: Group)
    requires (forall b :: b in add ==> b in local) && (forall b :: b in update ==> b in local)
    modifies cloud`groups, cloud`calls
    ensures OnlyGroup(old(cloud.groups), cloud.groups, id)
    ensures Evolves(BackendsOf(old(cloud.groups), id), BackendsOf(cloud.groups, id), local, del)
    ensures Evolves(BackendsOf(old(cloud.groups), id), g1, add, [])
    ensures BackendsOf(cloud.groups, id).Keys <= g1.Keys
    ensures errs == [] ==>
              && (!retryAdd ==> g1 == Upsert(BackendsOf(old(cloud.groups), id), add))
              && BackendsOf(cloud.groups, id) == SetAttributes(Remove(g1, del), update)
    ensures old(Smooth(cloud, id)) ==>
              && errs == []
              && (|BackendsOf(old(cloud.groups), id).Keys + Keys(add)| <= cloud.quota ==> !retryAdd)
  {
    ghost var g0 := BackendsOf(cloud.groups, id);
    errs, retryAdd := TryAdd(cloud, id, add, batchSize);
    g1 := BackendsOf(cloud.groups, id);
    if |del| > 0 {
      var e := BatchRemove(cloud, id, del, batchSize);
      errs := errs + e;
    }
    ghost var g2 := BackendsOf(cloud.groups, id);
    if |update| > 0 {
      var e := BatchUpdate(cloud, id, update, batchSize);
      errs := errs + e;
    }
    FirstPassEvolves(g0, g1, g2, BackendsOf(cloud.groups, id), add, del, update, local);
  }

  /** Whatever fails, a shadowed group does not become the desired one. */
  lemma ShadowedNeverDesired(g: Group, g': Group, local: seq<Backend>, remote: seq<Backend>, owner: Owner)
    requires Describes(remote, g, owner) && Consistent(local) && !Unshadowed(g, local, owner)
    requires forall k :: k in g' ==> k in g || InKeys(k, Additions(remote, local))
    requires forall k :: k in g ==> k in g' || InKeys(k, Deletions(remote, local))
    ensures g' != Desired(g, local, owner)
  {
    DiffByKeys(remote, local, g, owner);
    if l :| l in local && KeyOf(l) !in g && !Unhidden(g, local, KeyOf(l)) {
      DesiredAt(g, local, owner, KeyOf(l));
    } else {
      var k, l :| k in g && ManagedBy(g[k].description, owner) && !InKeys(k, local) && l in local && Shadows(k, l);
      DesiredAt(g, local, owner, k);
    }
  }

  /** A group that has all that is wanted and nothing that is to be deleted. */
  ghost predicate Closed(g: Group, local: seq<Backend>, del: seq<Backend>) {
    && (forall l :: l in local ==> KeyOf(l) in g && g[KeyOf(l)] == StoredOf(l))
    && (forall k :: k in g ==> !InKeys(k, del))
  }

  /** No call changes such a group, however old the view is that the calls come from. */
  lemma ClosedStays(g: Group, local: seq<Backend>, add: seq<Backend>, del: seq<Backend>, upd: seq<Backend>)
    requires Closed(g, local, del) && (forall b :: b in add ==> b in local) && (forall b :: b in upd ==> b in local)
    ensures Upsert(g, add) == g && Remove(g, del) == g && SetAttributes(g, upd) == g
    ensures g.Keys + Keys(add) == g.Keys
  {
    UpsertOfStored(g, add);
    RemoveKeys(g, del);
    SetAttributesOfStored(g, upd);
  }

  lemma {:induction false} SetAttributesOfStored(g: Group, s: seq<Backend>)
    requires forall b :: b in s ==> KeyOf(b) in g && g[KeyOf(b)] == StoredOf(b)
    ensures SetAttributes(g, s) == g
  {
    if s != [] {
      assert s == s[..|s| - 1] + [s[|s| - 1]];
      SetAttributesOfStored(g, s[..|s| - 1]);
      assert s[|s| - 1] in s;
    }
  }

  /** The group g4 that calls without an error leave, with g1 after the first additions: these
      were made at once, or they are made again. */
  ghost predicate CallsDone(g0: Group, g1: Group, g4: Group, add: seq<Backend>, del: seq<Backend>, upd: seq<Backend>,
                            retried: bool) {
    var g3 := SetAttributes(Remove(g1, del), upd);
    if retried then g4 == Upsert(g3, add) else g1 == Upsert(g0, add) && g4 == g3
  }

  /** When no call fails only the quota can be met, and twice only if the retry does not fit. */
  ghost predicate SmoothCalls(g0: Group, g1: Group, add: seq<Backend>, del: seq<Backend>, upd: seq<Backend>,
                              quota: nat, retried: bool, errs: seq<CallResult>) {
    var g3 := SetAttributes(Remove(g1, del), upd);
    && (|g0.Keys + Keys(add)| <= quota ==> !retried)
    && (!retried ==> errs == [])
    && (retried && |g3.Keys + Keys(add)| <= quota ==> errs == [])
  }

  /** Both rounds of calls: the additions are made again when they ran into the quota. */
  method MakeCalls(cloud: SlbCloud, id: nat, local: seq<Backend>, add: seq<Backend>, del: seq<Backend>,
                   update: seq<Backend>, batchSize: int)
    returns (errs: seq<CallResult>, ghost retried: bool, ghost g1: Group)
    requires (forall b :: b in add ==> b in local) && (forall b :: b in update ==> b in local)
    modifies cloud`groups, cloud`calls
    ensures OnlyGroup(old(cloud.groups), cloud.groups, id)
    ensures Evolves(BackendsOf(old(cloud.groups), id), BackendsOf(cloud.groups, id), local, del)
    ensures Evolves(BackendsOf(old(cloud.groups), id), g1, add, [])
    ensures forall k :: k in BackendsOf(cloud.groups, id) ==> k in BackendsOf(old(cloud.groups), id) || InKeys(k, add)
    ensures errs == [] ==>
              CallsDone(BackendsOf(old(cloud.groups), id), g1, BackendsOf(cloud.groups, id), add, del, update, retried)
    ensures old(Smooth(cloud, id)) ==>
              SmoothCalls(BackendsOf(old(cloud.groups), id), g1, add, del, update, cloud.quota, retried, errs)
  {
    ghost var g0 := BackendsOf(cloud.groups, id);
    var retryAdd;
    errs, retryAdd, g1 := FirstPass(cloud, id, local, add, del, update, batchSize);
    retried := retryAdd;
    if retryAdd {
      ghost var g3 := BackendsOf(cloud.groups, id);
      var e := BatchAdd(cloud, id, add, batchSize);
      errs := errs + e;
      RetryEvolves(g0, g3, BackendsOf(cloud.groups, id), add, del, local);
    }
  }

  /** Calls without an error end in the desired group exactly when no key shadows a wanted
      backend. */
  lemma DoneIsDesired(g0: Group, g1: Group, g4: Group, local: seq<Backend>, remote: seq<Backend>, owner: Owner,
                      retried: bool)
    requires Evolves(g0, g1, Additions(remote, local), []) && Describes(remote, g0, owner) && Consistent(local)
    requires CallsDone(g0, g1, g4, Additions(remote, local), Deletions(remote, local), Updates(remote, local), retried)
    ensures g4 == Desired(g0, local, owner) <==> Unshadowed(g0, local, owner)
  {
    Converges(g0, local, remote, owner, g1);
    ConvergesAtOnce(g0, local, remote, owner);
  }

  /** When no call fails, and the quota is not in the way, there is no error. */
  lemma CallsSucceed(g0: Group, g1: Group, local: seq<Backend>, remote: seq<Backend>, owner: Owner,
                     quota: nat, retried: bool, errs: seq<CallResult>)
    requires Evolves(g0, g1, Additions(remote, local), []) && Reconcilable(g0, local, remote, owner, quota)
    requires SmoothCalls(g0, g1, Additions(remote, local), Deletions(remote, local), Updates(remote, local),
                         quota, retried, errs)
    ensures errs == []
  {
    RetryFits(g0, local, remote, owner, quota, g1);
  }

  /** Nor is there for a group that has it all already. */
  lemma StayingSucceeds(g0: Group, g1: Group, local: seq<Backend>, remote: seq<Backend>, quota: nat,
                        retried: bool, errs: seq<CallResult>)
    requires Closed(g0, local, Deletions(remote, local)) && |g0| <= quota
    requires SmoothCalls(g0, g1, Additions(remote, local), Deletions(remote, local), Updates(remote, local),
                         quota, retried, errs)
    ensures errs == []
  {
    ClosedStays(g0, local, Additions(remote, local), Deletions(remote, local), Updates(remote, local));
  }

  /** Such a group stays whatever of the calls goes through. */
  lemma ClosedEvolves(g0: Group, g4: Group, local: seq<Backend>, del: seq<Backend>)
    requires Closed(g0, local, del) && Evolves(g0, g4, local, del)
    ensures g4 == g0
  {
  }

  /** Two lists of wanted backends that are applied to one group from the same old view undo
      each other: when the group is the service's and holds both, apart from each other, the
      first leaves its own and the second leaves nothing. */
  lemma RivalsEmpty(g: Group, remote: seq<Backend>, first: seq<Backend>, second: seq<Backend>, owner: Owner)
    requires Describes(remote, g, owner) && UserPart(g, owner) == map[]
    requires Consistent(first) && Unshadowed(g, first, owner) && Unshadowed(g, second, owner)
    requires Keys(first) <= g.Keys && Keys(second) <= g.Keys && Keys(first) !! Keys(second)
    ensures Additions(remote, first) == [] && Additions(remote, second) == []
    ensures var g1 := SetAttributes(Remove(g, Deletions(remote, first)), Updates(remote, first));
            && g1 == Desired(g, first, owner) && g1.Keys == Keys(first)
            && SetAttributes(Remove(g1, Deletions(remote, second)), Updates(remote, second)) == map[]
  {
    NothingMissing(g, remote, first, owner);
    NothingMissing(g, remote, second, owner);
    FirstLeavesItsOwn(g, remote, first, owner);
    var g1 := SetAttributes(Remove(g, Deletions(remote, first)), Updates(remote, first));
    SecondLeavesNothing(g, remote, second, owner, g1);
  }

  lemma FirstLeavesItsOwn(g: Group, remote: seq<Backend>, first: seq<Backend>, owner: Owner)
    requires Describes(remote, g, owner) && UserPart(g, owner) == map[] && Additions(remote, first) == []
    requires Consistent(first) && Unshadowed(g, first, owner)
    ensures var g1 := SetAttributes(Remove(g, Deletions(remote, first)), Updates(remote, first));
            g1 == Desired(g, first, owner) && g1.Keys == Keys(first)
  {
    UpsertEvolves(g, []);
    ConvergesAtOnce(g, first, remote, owner);
    Converges(g, first, remote, owner, g);
    UpsertKeys(map[], first);
  }

  lemma SecondLeavesNothing(g: Group, remote: seq<Backend>, second: seq<Backend>, owner: Owner, g1: Group)
    requires Describes(remote, g, owner) && UserPart(g, owner) == map[] && Unshadowed(g, second, owner)
    requires g1.Keys <= g.Keys && g1.Keys !! Keys(second)
    ensures SetAttributes(Remove(g1, Deletions(remote, second)), Updates(remote, second)) == map[]
  {
    var g2 := Remove(g1, Deletions(remote, second));
    RemoveKeys(g1, Deletions(remote, second));
    forall k | k in g1
      ensures InKeys(k, Deletions(remote, second))
    {
      UnwantedIsDeleted(g, remote, second, owner, k);
    }
    assert g2 == map[];
    SetAttributesKeys(g2, Updates(remote, second));
  }

  lemma UnwantedIsDeleted(g: Group, remote: seq<Backend>, local: seq<Backend>, owner: Owner, k: BackendKey)
    requires Describes(remote, g, owner) && UserPart(g, owner) == map[] && Unshadowed(g, local, owner)
    requires k in g && k !in Keys(local)
    ensures InKeys(k, Deletions(remote, local))
  {
    DiffByKeys(remote, local, g, owner);
    assert k !in UserPart(g, owner) && !InKeys(k, local);
  }

  lemma NothingMissing(g: Group, remote: seq<Backend>, local: seq<Backend>, owner: Owner)
    requires Describes(remote, g, owner) && Keys(local) <= g.Keys
    ensures Additions(remote, local) == []
  {
    DiffByKeys(remote, local, g, owner);
    FilterEmpty(Missing(remote), local);
    forall l | l in local
      ensures !Missing(remote)(l)
    {
      assert KeyOf(l) in Keys(local);
      assert l !in Additions(remote, local);
    }
  }

  /** Reconciling the backends of one group. Whatever fails, the group changes only by
      storing wanted backends and dropping keys of the deletions, and no other group
      changes. Without an error the group has become the desired one, even when the first
      additions ran into the quota, exactly when no key shadows a wanted backend; shadowed it
      never does. There is no error when no call fails and the desired group fits the quota. A
      group that has it all already stays as it is. */
  method UpdateVServerGroup(cloud: SlbCloud, local: VServerGroup, remote: VServerGroup, batchSize: int,
                            ghost owner: Owner)
    returns (errs: seq<CallResult>)
    requires local.id == remote.id
    modifies cloud`groups, cloud`calls
    ensures OnlyGroup(old(cloud.groups), cloud.groups, local.id)
    ensures Evolves(BackendsOf(old(cloud.groups), local.id), BackendsOf(cloud.groups, local.id),
                    local.backends, Deletions(remote.backends, local.backends))
    ensures errs == []
              && Describes(remote.backends, BackendsOf(old(cloud.groups), local.id), owner)
              && Consistent(local.backends)
            ==> (BackendsOf(cloud.groups, local.id)
                 == Desired(BackendsOf(old(cloud.groups), local.id), local.backends, owner)
                 <==> Unshadowed(BackendsOf(old(cloud.groups), local.id), local.backends, owner))
    ensures old(Smooth(cloud, local.id))
              && Reconcilable(BackendsOf(old(cloud.groups), local.id), local.backends, remote.backends,
                           owner, cloud.quota)
            ==> errs == []
    ensures Describes(remote.backends, BackendsOf(old(cloud.groups), local.id), owner) && Consistent(local.backends)
              && BackendsOf(cloud.groups, local.id)
                 == Desired(BackendsOf(old(cloud.groups), local.id), local.backends, owner)
            ==> Unshadowed(BackendsOf(old(cloud.groups), local.id), local.backends, owner)
    ensures Closed(BackendsOf(old(cloud.groups), local.id), local.backends,
                   Deletions(remote.backends, local.backends))
            ==> && BackendsOf(cloud.groups, local.id) == BackendsOf(old(cloud.groups), local.id)
                && (old(Smooth(cloud, local.id)) && |BackendsOf(old(cloud.groups), local.id)| <= cloud.quota
                    ==> errs == [])
  {
    var add, del, update := Diff(remote.backends, local.backends);
    ghost var g0 := BackendsOf(cloud.groups, local.id);
    ghost var smooth := Smooth(cloud, local.id);
    ghost var retried, g1;
    errs, retried, g1 := MakeCalls(cloud, local.id, local.backends, add, del, update, batchSize);
    ghost var g4 := BackendsOf(cloud.groups, local.id);
    if errs == [] && Describes(remote.backends, g0, owner) && Consistent(local.backends) {
      DoneIsDesired(g0, g1, g4, local.backends, remote.backends, owner, retried);
    }
    if smooth && Reconcilable(g0, local.backends, remote.backends, owner, cloud.quota) {
      CallsSucceed(g0, g1, local.backends, remote.backends, owner, cloud.quota, retried, errs);
    }
    if Closed(g0, local.backends, del) {
      ClosedEvolves(g0, g4, local.backends, del);
      if smooth && |g0| <= cloud.quota {
        StayingSucceeds(g0, g1, local.backends, remote.backends, cloud.quota, retried, errs);
      }
    }
    if Describes(remote.backends, g0, owner) && Consistent(local.backends) && !Unshadowed(g0, local.backends, owner) {
      ShadowedNeverDesired(g0, g4, local.backends, remote.backends, owner);
    }
  }
}
