/** Reconciling the backends of one virtual server group: the diff between the wanted and
    the present list, and the add, remove and update calls with a retry of the additions
    when the quota was hit before the removals. */
module Backends {
  import opened Common
  import opened NamedKeys

  const ENI := "eni"

  /** A backend as the controller holds it. */
  datatype Backend = Backend(
    serverId: string, serverIp: string, port: int, weight: int, description: string,
    kind: string, isUserManaged: bool)

  /** How the cloud tells backends of a group apart, and what it stores for each. */
  datatype BackendKey = BackendKey(serverId: string, serverIp: string, port: int)
  datatype Stored = Stored(weight: int, description: string)
  type Group = map<BackendKey, Stored>

  function KeyOf(b: Backend): BackendKey { BackendKey(b.serverId, b.serverIp, b.port) }
  function StoredOf(b: Backend): Stored { Stored(b.weight, b.description) }

  ghost predicate InKeys(k: BackendKey, s: seq<Backend>) { exists b :: b in s && KeyOf(b) == k }

  /** Backends of one list with the same key carry the same data. */
  ghost predicate Consistent(s: seq<Backend>) {
    forall b, b' :: b in s && b' in s && KeyOf(b) == KeyOf(b') ==> StoredOf(b) == StoredOf(b')
  }

  // ---- what the cloud calls do to a group ----------------------------------------------

  function Upsert(g: Group, s: seq<Backend>): Group {
    if s == [] then g
    else var b := s[|s| - 1]; Upsert(g, s[..|s| - 1])[KeyOf(b) := StoredOf(b)]
  }

  function Remove(g: Group, s: seq<Backend>): Group {
    if s == [] then g else Remove(g, s[..|s| - 1]) - {KeyOf(s[|s| - 1])}
  }

  /** Setting attributes ignores keys that are absent. */
  function SetAttributes(g: Group, s: seq<Backend>): Group {
    if s == [] then g
    else
      var b, before := s[|s| - 1], SetAttributes(g, s[..|s| - 1]);
      if KeyOf(b) in before then before[KeyOf(b) := StoredOf(b)] else before
  }

  lemma InKeysStep(k: BackendKey, s: seq<Backend>)
    requires s != []
    ensures InKeys(k, s) <==> InKeys(k, s[..|s| - 1]) || k == KeyOf(s[|s| - 1])
  {
    assert s == s[..|s| - 1] + [s[|s| - 1]];
  }

  lemma {:induction false} UpsertKeys(g: Group, s: seq<Backend>)
    ensures forall k :: k in Upsert(g, s) <==> k in g || InKeys(k, s)
    ensures forall k :: k in Upsert(g, s) && !InKeys(k, s) ==> Upsert(g, s)[k] == g[k]
  {
    if s != [] {
      UpsertKeys(g, s[..|s| - 1]);
      forall k { InKeysStep(k, s); }
    }
  }

  lemma {:induction false} UpsertValues(g: Group, s: seq<Backend>)
    requires Consistent(s)
    ensures forall b :: b in s ==> KeyOf(b) in Upsert(g, s) && Upsert(g, s)[KeyOf(b)] == StoredOf(b)
  {
    if s != [] {
      assert s == s[..|s| - 1] + [s[|s| - 1]];
      UpsertValues(g, s[..|s| - 1]);
    }
  }

  lemma {:induction false} UpsertConcat(g: Group, s: seq<Backend>, t: seq<Backend>)
    ensures Upsert(g, s + t) == Upsert(Upsert(g, s), t)
  {
    if t == [] {
      assert s + t == s;
    } else {
      UpsertConcat(g, s, t[..|t| - 1]);
      assert (s + t)[..|s + t| - 1] == s + t[..|t| - 1];
    }
  }

  lemma {:induction false} RemoveKeys(g: Group, s: seq<Backend>)
    ensures forall k :: k in Remove(g, s) <==> k in g && !InKeys(k, s)
    ensures forall k :: k in Remove(g, s) ==> Remove(g, s)[k] == g[k]
  {
    if s != [] {
      RemoveKeys(g, s[..|s| - 1]);
      forall k { InKeysStep(k, s); }
    }
  }

  lemma {:induction false} RemoveConcat(g: Group, s: seq<Backend>, t: seq<Backend>)
    ensures Remove(g, s + t) == Remove(Remove(g, s), t)
  {
    if t == [] {
      assert s + t == s;
    } else {
      RemoveConcat(g, s, t[..|t| - 1]);
      assert (s + t)[..|s + t| - 1] == s + t[..|t| - 1];
    }
  }

  lemma {:induction false} SetAttributesKeys(g: Group, s: seq<Backend>)
    ensures SetAttributes(g, s).Keys == g.Keys
    ensures forall k :: k in g && !InKeys(k, s) ==> SetAttributes(g, s)[k] == g[k]
  {
    if s != [] {
      SetAttributesKeys(g, s[..|s| - 1]);
      forall k { InKeysStep(k, s); }
    }
  }

  lemma {:induction false} SetAttributesValues(g: Group, s: seq<Backend>)
    requires Consistent(s)
    ensures forall b :: b in s && KeyOf(b) in g ==>
              KeyOf(b) in SetAttributes(g, s) && SetAttributes(g, s)[KeyOf(b)] == StoredOf(b)
  {
    if s != [] {
      assert s == s[..|s| - 1] + [s[|s| - 1]];
      SetAttributesKeys(g, s[..|s| - 1]);
      SetAttributesValues(g, s[..|s| - 1]);
    }
  }

  lemma {:induction false} SetAttributesConcat(g: Group, s: seq<Backend>, t: seq<Backend>)
    ensures SetAttributes(g, s + t) == SetAttributes(SetAttributes(g, s), t)
  {
    if t == [] {
      assert s + t == s;
    } else {
      SetAttributesConcat(g, s, t[..|t| - 1]);
      assert (s + t)[..|s + t| - 1] == s + t[..|t| - 1];
    }
  }

  /** A group changed at most by storing backends of `added` and dropping keys of `dropped`. */
  ghost predicate Evolves(g: Group, g': Group, added: seq<Backend>, dropped: seq<Backend>) {
    && (forall k :: k in g ==> k in g' || InKeys(k, dropped))
    && (forall k :: k in g' ==>
          (k in g && g'[k] == g[k]) || exists b :: b in added && KeyOf(b) == k && StoredOf(b) == g'[k])
  }

  lemma EvolvesTransitive(g: Group, g': Group, g'': Group, added: seq<Backend>, dropped: seq<Backend>)
    requires Evolves(g, g', added, dropped) && Evolves(g', g'', added, dropped)
    ensures Evolves(g, g'', added, dropped)
  {}

  lemma EvolvesWeaken(g: Group, g': Group, added: seq<Backend>, dropped: seq<Backend>, added': seq<Backend>,
                      dropped': seq<Backend>)
    requires Evolves(g, g', added, dropped)
    requires forall b :: b in added ==> b in added'
    requires forall b :: b in dropped ==> b in dropped'
    ensures Evolves(g, g', added', dropped')
  {}

  lemma {:induction false} UpsertEvolves(g: Group, s: seq<Backend>)
    ensures Evolves(g, Upsert(g, s), s, [])
  {
    if s != [] {
      assert s == s[..|s| - 1] + [s[|s| - 1]];
      UpsertEvolves(g, s[..|s| - 1]);
    }
  }

  lemma RemoveEvolves(g: Group, s: seq<Backend>)
    ensures Evolves(g, Remove(g, s), [], s)
  {
    RemoveKeys(g, s);
  }

  lemma {:induction false} SetAttributesEvolves(g: Group, s: seq<Backend>)
    ensures Evolves(g, SetAttributes(g, s), s, [])
  {
    if s != [] {
      assert s == s[..|s| - 1] + [s[|s| - 1]];
      SetAttributesEvolves(g, s[..|s| - 1]);
    }
  }

  // ---- the diff ------------------------------------------------------------------------

  /** A wanted backend is the same server as a present one. */
  predicate SameServer(l: Backend, r: Backend) {
    l.serverId == r.serverId && (l.kind == ENI ==> l.serverIp == r.serverIp)
  }

  /** ... on the same port: the identity used for additions and deletions. */
  predicate SameSlot(l: Backend, r: Backend) { SameServer(l, r) && l.port == r.port }

  /** ... and differs in port, weight or description: the test used for updates. */
  predicate Outdated(l: Backend, r: Backend) {
    SameServer(l, r) && (l.port != r.port || l.weight != r.weight || l.description != r.description)
  }

  function Stale(local: seq<Backend>): Backend -> bool {
    (r: Backend) => !r.isUserManaged && !exists l :: l in local && SameSlot(l, r)
  }
  function Missing(remote: seq<Backend>): Backend -> bool { (l: Backend) => !exists r :: r in remote && SameSlot(l, r) }
  function Changed(remote: seq<Backend>): Backend -> bool { (l: Backend) => exists r :: r in remote && Outdated(l, r) }

  function Additions(remote: seq<Backend>, local: seq<Backend>): seq<Backend> { Filter(Missing(remote), local) }
  function Deletions(remote: seq<Backend>, local: seq<Backend>): seq<Backend> { Filter(Stale(local), remote) }
  function Updates(remote: seq<Backend>, local: seq<Backend>): seq<Backend> { Filter(Changed(remote), local) }

  method IsWanted(r: Backend, local: seq<Backend>) returns (found: bool)
    ensures found <==> exists l :: l in local && SameSlot(l, r)
  {
    for j := 0 to |local|
      invariant forall l :: l in local[..j] ==> !SameSlot(l, r)
    {
      if SameSlot(local[j], r) { return true; }
    }
    return false;
  }

  method IsPresent(l: Backend, remote: seq<Backend>) returns (found: bool)
    ensures found <==> exists r :: r in remote && SameSlot(l, r)
  {
    for j := 0 to |remote|
      invariant forall r :: r in remote[..j] ==> !SameSlot(l, r)
    {
      if SameSlot(l, remote[j]) { return true; }
    }
    return false;
  }

  method IsOutdated(l: Backend, remote: seq<Backend>) returns (found: bool)
    ensures found <==> exists r :: r in remote && Outdated(l, r)
  {
    for j := 0 to |remote|
      invariant forall r :: r in remote[..j] ==> !Outdated(l, r)
    {
      if Outdated(l, remote[j]) { return true; }
    }
    return false;
  }

  method FindStale(remote: seq<Backend>, local: seq<Backend>) returns (deletions: seq<Backend>)
    ensures deletions == Deletions(remote, local)
  {
    deletions := [];
    for i := 0 to |remote|
      invariant deletions == Filter(Stale(local), remote[..i])
    {
      FilterStep(Stale(local), remote, i);
      var r := remote[i];
      if r.isUserManaged { continue; }
      var found := IsWanted(r, local);
      if !found { deletions := deletions + [r]; }
    }
    assert remote[..|remote|] == remote;
  }

  method FindMissing(remote: seq<Backend>, local: seq<Backend>) returns (additions: seq<Backend>)
    ensures additions == Additions(remote, local)
  {
    additions := [];
    for i := 0 to |local|
      invariant additions == Filter(Missing(remote), local[..i])
    {
      FilterStep(Missing(remote), local, i);
      var found := IsPresent(local[i], remote);
      if !found { additions := additions + [local[i]]; }
    }
    assert local[..|local|] == local;
  }

  method FindChanged(remote: seq<Backend>, local: seq<Backend>) returns (updates: seq<Backend>)
    ensures updates == Updates(remote, local)
  {
    updates := [];
    for i := 0 to |local|
      invariant updates == Filter(Changed(remote), local[..i])
    {
      FilterStep(Changed(remote), local, i);
      var found := IsOutdated(local[i], remote);
      if found { updates := updates + [local[i]]; }
    }
    assert local[..|local|] == local;
  }

  method Diff(remote: seq<Backend>, local: seq<Backend>)
    returns (additions: seq<Backend>, deletions: seq<Backend>, updates: seq<Backend>)
    ensures additions == Additions(remote, local)
    ensures deletions == Deletions(remote, local)
    ensures updates == Updates(remote, local)
  {
    deletions := FindStale(remote, local);
    additions := FindMissing(remote, local);
    updates := FindChanged(remote, local);
  }

  // ---- what the group should become ------------------------------------------------------

  /** The backends of a group that the service does not manage. */
  function UserPart(g: Group, owner: Owner): Group {
    map k | k in g && !ManagedBy(g[k].description, owner) :: g[k]
  }

  /** The user's backends, overridden by the wanted ones. */
  function Desired(g: Group, local: seq<Backend>, owner: Owner): Group { Upsert(UserPart(g, owner), local) }

  /** A description of a group: one entry or more for each backend, and nothing else, the
      foreign ones marked as the user's. */
  ghost predicate Describes(remote: seq<Backend>, g: Group, owner: Owner) {
    && (forall k :: k in g ==> InKeys(k, remote))
    && (forall r :: r in remote ==>
          KeyOf(r) in g && StoredOf(r) == g[KeyOf(r)] && r.isUserManaged == !ManagedBy(r.description, owner))
  }

  /** A present key that the diff takes for a wanted instance backend though its address is
      another one: addresses are compared for ENI backends only. */
  predicate Shadows(k: BackendKey, l: Backend) {
    l.kind != "eni" && k.serverId == l.serverId && k.port == l.port && k.serverIp != l.serverIp
  }

  /** No such key hides a wanted backend that is absent, nor is itself the service's to delete. */
  ghost predicate Unshadowed(g: Group, local: seq<Backend>, owner: Owner) {
    && (forall l :: l in local && KeyOf(l) !in g ==> Unhidden(g, local, KeyOf(l)))
    && (forall k, l :: k in g && ManagedBy(g[k].description, owner) && !InKeys(k, local) && l in local ==>
          !Shadows(k, l))
  }

  ghost predicate Unhidden(g: Group, local: seq<Backend>, key: BackendKey) {
    exists l :: l in local && KeyOf(l) == key && forall k :: k in g ==> !Shadows(k, l)
  }

  lemma SlotIsKey(l: Backend, r: Backend)
    ensures SameSlot(l, r) <==> KeyOf(l) == KeyOf(r) || Shadows(KeyOf(r), l)
  {}

  /** Additions are wanted backends whose key is absent; deletions have keys that are the
      service's and not wanted; a wanted backend that is present with other data is updated. */
  lemma DiffByKeys(remote: seq<Backend>, local: seq<Backend>, g: Group, owner: Owner)
    requires Describes(remote, g, owner)
    ensures forall l :: l in Additions(remote, local) <==> l in local && KeyOf(l) !in g && forall k :: k in g ==>
              !Shadows(k, l)
    ensures forall k :: InKeys(k, Deletions(remote, local)) <==>
              && k in g && ManagedBy(g[k].description, owner) && !InKeys(k, local)
              && forall l :: l in local ==> !Shadows(k, l)
    ensures forall l :: l in local && KeyOf(l) in g && g[KeyOf(l)] != StoredOf(l) ==> l in Updates(remote, local)
  {
    forall l, r | l in local && r in remote
      ensures SameSlot(l, r) <==> KeyOf(l) == KeyOf(r) || Shadows(KeyOf(r), l)
    {
      SlotIsKey(l, r);
    }
    forall l | l in local
      ensures l in Additions(remote, local) <==> KeyOf(l) !in g && forall k :: k in g ==> !Shadows(k, l)
    {
      AdditionByKeys(remote, local, g, owner, l);
    }
    forall k
      ensures InKeys(k, Deletions(remote, local)) <==>
        && k in g && ManagedBy(g[k].description, owner) && !InKeys(k, local)
        && forall l :: l in local ==> !Shadows(k, l)
    {
      DeletionByKeys(remote, local, g, owner, k);
    }
    forall l | l in local && KeyOf(l) in g
      ensures g[KeyOf(l)] != StoredOf(l) ==> l in Updates(remote, local)
    {
      var r :| r in remote && KeyOf(r) == KeyOf(l);
      assert g[KeyOf(l)] != StoredOf(l) ==> Outdated(l, r);
    }
  }

  lemma AdditionByKeys(remote: seq<Backend>, local: seq<Backend>, g: Group, owner: Owner, l: Backend)
    requires Describes(remote, g, owner) && l in local
    ensures l in Additions(remote, local) <==> KeyOf(l) !in g && forall k :: k in g ==> !Shadows(k, l)
  {
    if KeyOf(l) in g {
      var r :| r in remote && KeyOf(r) == KeyOf(l);
      SlotIsKey(l, r);
    } else if k :| k in g && Shadows(k, l) {
      var r :| r in remote && KeyOf(r) == k;
      SlotIsKey(l, r);
    } else {
      forall r | r in remote ensures !SameSlot(l, r) { SlotIsKey(l, r); }
    }
  }

  lemma DeletionByKeys(remote: seq<Backend>, local: seq<Backend>, g: Group, owner: Owner, k: BackendKey)
    requires Describes(remote, g, owner)
    ensures InKeys(k, Deletions(remote, local)) <==>
              && k in g && ManagedBy(g[k].description, owner) && !InKeys(k, local)
              && forall l :: l in local ==> !Shadows(k, l)
  {
    if InKeys(k, Deletions(remote, local)) {
      var r :| r in Deletions(remote, local) && KeyOf(r) == k;
      forall l | l in local ensures KeyOf(l) != k && !Shadows(k, l) { SlotIsKey(l, r); }
    }
    if k in g && ManagedBy(g[k].description, owner) && !InKeys(k, local) && forall l :: l in local ==> !Shadows(k, l) {
      var r :| r in remote && KeyOf(r) == k;
      forall l | l in local ensures !SameSlot(l, r) { SlotIsKey(l, r); }
      assert r in Deletions(remote, local);
    }
  }

  /** The group after the first additions, removals, updates, and the additions again. */
  ghost function AfterCalls(g1: Group, local: seq<Backend>, remote: seq<Backend>): Group {
    Upsert(SetAttributes(Remove(g1, Deletions(remote, local)), Updates(remote, local)), Additions(remote, local))
  }

  /** What the calls leave at the key of a wanted backend. */
  lemma ConvergesAtWanted(g: Group, local: seq<Backend>, remote: seq<Backend>, owner: Owner, g1: Group, l: Backend)
    requires Describes(remote, g, owner) && Consistent(local) && l in local
    requires Evolves(g, g1, Additions(remote, local), [])
    requires KeyOf(l) in g || InKeys(KeyOf(l), Additions(remote, local))
    ensures var g4 := AfterCalls(g1, local, remote); KeyOf(l) in g4 && g4[KeyOf(l)] == StoredOf(l)
  {
    var k := KeyOf(l);
    var add, del, upd := Additions(remote, local), Deletions(remote, local), Updates(remote, local);
    var g2 := Remove(g1, del);
    var g3 := SetAttributes(g2, upd);
    if InKeys(k, add) {
      var a :| a in add && KeyOf(a) == k;
      UpsertValues(g3, add);
    } else {
      DiffByKeys(remote, local, g, owner);
      assert InKeys(k, local) && !InKeys(k, del);
      UpsertKeys(g3, add);
      assert k in g1 && g1[k] == g[k];
      RemoveKeys(g1, del);
      SetAttributesKeys(g2, upd);
      if InKeys(k, upd) {
        var l' :| l' in upd && KeyOf(l') == k;
        SetAttributesValues(g2, upd);
      }
    }
  }

  /** What they leave at any other key. */
  lemma ConvergesElsewhere(g: Group, local: seq<Backend>, remote: seq<Backend>, owner: Owner, g1: Group, k: BackendKey)
    requires Describes(remote, g, owner) && Evolves(g, g1, Additions(remote, local), []) && !InKeys(k, local)
    ensures var g4 := AfterCalls(g1, local, remote);
            (k in g4 <==> k in g && !InKeys(k, Deletions(remote, local))) && (k in g4 ==> g4[k] == g[k])
  {
    var add, del, upd := Additions(remote, local), Deletions(remote, local), Updates(remote, local);
    assert !InKeys(k, add) && !InKeys(k, upd);
    var g2 := Remove(g1, del);
    UpsertKeys(SetAttributes(g2, upd), add);
    SetAttributesKeys(g2, upd);
    RemoveKeys(g1, del);
  }

  /** A wanted key that is neither there nor added never comes. */
  lemma HiddenStaysAway(g: Group, local: seq<Backend>, remote: seq<Backend>, g1: Group, k: BackendKey)
    requires Evolves(g, g1, Additions(remote, local), []) && k !in g && !InKeys(k, Additions(remote, local))
    ensures k !in AfterCalls(g1, local, remote)
  {
    var add, del, upd := Additions(remote, local), Deletions(remote, local), Updates(remote, local);
    var g2 := Remove(g1, del);
    UpsertKeys(SetAttributes(g2, upd), add);
    SetAttributesKeys(g2, upd);
    RemoveKeys(g1, del);
  }

  lemma DesiredAt(g: Group, local: seq<Backend>, owner: Owner, k: BackendKey)
    requires Consistent(local)
    ensures var want, user := Desired(g, local, owner), UserPart(g, owner);
            && (forall l :: l in local && KeyOf(l) == k ==> k in want && want[k] == StoredOf(l))
            && (!InKeys(k, local) ==> (k in want <==> k in user) && (k in user ==> want[k] == user[k]))
  {
    UpsertKeys(UserPart(g, owner), local);
    UpsertValues(UserPart(g, owner), local);
  }

  lemma ConvergesAt(g: Group, local: seq<Backend>, remote: seq<Backend>, owner: Owner, g1: Group, k: BackendKey)
    requires Describes(remote, g, owner) && Unshadowed(g, local, owner) && Consistent(local)
    requires Evolves(g, g1, Additions(remote, local), [])
    ensures var g4, want := AfterCalls(g1, local, remote), Desired(g, local, owner);
            (k in g4 <==> k in want) && (k in g4 ==> g4[k] == want[k])
  {
    DesiredAt(g, local, owner, k);
    DiffByKeys(remote, local, g, owner);
    if InKeys(k, local) {
      var l :| l in local && KeyOf(l) == k;
      if k !in g {
        var l' :| l' in local && KeyOf(l') == k && forall x :: x in g ==> !Shadows(x, l');
        assert l' in Additions(remote, local);
      }
      ConvergesAtWanted(g, local, remote, owner, g1, l);
    } else {
      ConvergesElsewhere(g, local, remote, owner, g1, k);
    }
  }

  /** However much of the additions went through at first, removing, updating and adding
      (again) ends in the desired group exactly when no key shadows a wanted backend. */
  lemma Converges(g: Group, local: seq<Backend>, remote: seq<Backend>, owner: Owner, g1: Group)
    requires Describes(remote, g, owner) && Consistent(local)
    requires Evolves(g, g1, Additions(remote, local), [])
    ensures AfterCalls(g1, local, remote) == Desired(g, local, owner) <==> Unshadowed(g, local, owner)
  {
    if Unshadowed(g, local, owner) {
      forall k { ConvergesAt(g, local, remote, owner, g1, k); }
    } else {
      Misses(g, local, remote, owner, g1);
    }
  }

  lemma Misses(g: Group, local: seq<Backend>, remote: seq<Backend>, owner: Owner, g1: Group)
    requires Describes(remote, g, owner) && Consistent(local) && Evolves(g, g1, Additions(remote, local), [])
    requires !Unshadowed(g, local, owner)
    ensures AfterCalls(g1, local, remote) != Desired(g, local, owner)
  {
    DiffByKeys(remote, local, g, owner);
    if l :| l in local && KeyOf(l) !in g && !Unhidden(g, local, KeyOf(l)) {
      DesiredAt(g, local, owner, KeyOf(l));
      HiddenStaysAway(g, local, remote, g1, KeyOf(l));
    } else {
      var k, l :| k in g && ManagedBy(g[k].description, owner) && !InKeys(k, local) && l in local && Shadows(k, l);
      DesiredAt(g, local, owner, k);
      ConvergesElsewhere(g, local, remote, owner, g1, k);
    }
  }

  /** When everything was added at once, the second round of additions changes nothing. */
  lemma ConvergesAtOnce(g: Group, local: seq<Backend>, remote: seq<Backend>, owner: Owner)
    requires Describes(remote, g, owner) && Consistent(local)
    ensures var add, del, upd := Additions(remote, local), Deletions(remote, local), Updates(remote, local);
            SetAttributes(Remove(Upsert(g, add), del), upd) == AfterCalls(Upsert(g, add), local, remote)
  {
    var add, del, upd := Additions(remote, local), Deletions(remote, local), Updates(remote, local);
    DiffByKeys(remote, local, g, owner);
    var g1 := Upsert(g, add);
    var g2 := Remove(g1, del);
    var g3 := SetAttributes(g2, upd);
    UpsertValues(g, add);
    RemoveKeys(g1, del);
    SetAttributesKeys(g2, upd);
    SetAttributesValues(g2, upd);
    forall b | b in add
      ensures KeyOf(b) in g3 && g3[KeyOf(b)] == StoredOf(b)
    {
      assert InKeys(KeyOf(b), local) && !InKeys(KeyOf(b), del);
      if InKeys(KeyOf(b), upd) {
        var l :| l in upd && KeyOf(l) == KeyOf(b);
      }
    }
    UpsertOfStored(g3, add);
  }

  lemma {:induction false} UpsertOfStored(g: Group, s: seq<Backend>)
    requires forall b :: b in s ==> KeyOf(b) in g && g[KeyOf(b)] == StoredOf(b)
    ensures Upsert(g, s) == g
  {
    if s != [] {
      assert s == s[..|s| - 1] + [s[|s| - 1]];
      UpsertOfStored(g, s[..|s| - 1]);
      assert s[|s| - 1] in s;
    }
  }

  // ---- a second run --------------------------------------------------------------------

  /** Every entry of the group on a wanted server is on its port and with its data. */
  ghost predicate NoRival(want: Group, local: seq<Backend>) {
    forall l, k :: l in local && k in want && SameServerKey(l, k) ==> k.port == l.port && want[k] == StoredOf(l)
  }

  predicate SameServerKey(l: Backend, k: BackendKey) {
    k.serverId == l.serverId && (l.kind == "eni" ==> k.serverIp == l.serverIp)
  }

  /** A group that holds what is wanted, and besides only what the user manages. */
  ghost predicate Settled(want: Group, local: seq<Backend>, owner: Owner) {
    && (forall l :: l in local ==> KeyOf(l) in want && want[KeyOf(l)] == StoredOf(l))
    && (forall k :: k in want ==> InKeys(k, local) || !ManagedBy(want[k].description, owner))
  }

  lemma DesiredIsSettled(g: Group, local: seq<Backend>, owner: Owner)
    requires Consistent(local)
    ensures Settled(Desired(g, local, owner), local, owner)
  {
    UpsertKeys(UserPart(g, owner), local);
    UpsertValues(UserPart(g, owner), local);
  }

  lemma NothingToAddOrDelete(want: Group, local: seq<Backend>, owner: Owner, remote: seq<Backend>)
    requires Settled(want, local, owner) && Describes(remote, want, owner)
    ensures Additions(remote, local) == [] && Deletions(remote, local) == []
  {
    DiffByKeys(remote, local, want, owner);
    FilterEmpty(Missing(remote), local);
    FilterEmpty(Stale(local), remote);
    forall l | l in local
      ensures !Missing(remote)(l)
    {
      assert l !in Additions(remote, local);
    }
    forall r | r in remote
      ensures !Stale(local)(r)
    {
      assert !InKeys(KeyOf(r), Deletions(remote, local));
      assert r !in Deletions(remote, local);
    }
  }

  lemma NothingToUpdate(want: Group, local: seq<Backend>, owner: Owner, remote: seq<Backend>)
    requires Describes(remote, want, owner)
    ensures Updates(remote, local) == [] <==> NoRival(want, local)
  {
    FilterEmpty(Changed(remote), local);
    if NoRival(want, local) {
      forall l, r | l in local && r in remote
        ensures !Outdated(l, r)
      {
        if SameServer(l, r) { assert SameServerKey(l, KeyOf(r)); }
      }
    } else {
      var l, k :| l in local && k in want && SameServerKey(l, k) && !(k.port == l.port && want[k] == StoredOf(l));
      var r :| r in remote && KeyOf(r) == k;
      assert Outdated(l, r);
    }
  }

  /** In a converged group the next diff adds and deletes nothing; it updates nothing exactly
      when every entry on a wanted server, wanted or the user's, is on its port and with its
      data. */
  lemma SecondDiff(g: Group, local: seq<Backend>, owner: Owner, remote: seq<Backend>)
    requires Consistent(local) && Describes(remote, Desired(g, local, owner), owner)
    ensures Additions(remote, local) == [] && Deletions(remote, local) == []
    ensures Updates(remote, local) == [] <==> NoRival(Desired(g, local, owner), local)
  {
    var want := Desired(g, local, owner);
    DesiredIsSettled(g, local, owner);
    NothingToAddOrDelete(want, local, owner, remote);
    NothingToUpdate(want, local, owner, remote);
  }
}
