/** Reconciling the servers of one server group of a network load balancer. */
module NlbServers {
  import opened Common
  import opened NamedKeys

  datatype ServerType = Ecs | Eni | Ip | OtherType(name: string)

  datatype Server = Server(kind: ServerType, serverId: string, serverIp: string, port: int, weight: int,
                           description: string, isUserManaged: bool)

  predicate IsServerEqual(a: Server, b: Server) {
    && a.kind == b.kind
    && match a.kind
       case Eni => a.serverId == b.serverId && a.serverIp == b.serverIp
       case Ecs => a.serverId == b.serverId
       case Ip => a.serverId == b.serverId && a.serverIp == b.serverIp
       case OtherType(_) => false
  }

  predicate Supported(s: Server) { !s.kind.OtherType? }

  /** How the cloud tells servers apart: the address of an instance is not looked at. */
  datatype Identity = Identity(kind: ServerType, serverId: string, serverIp: string)
  datatype Data = Data(port: int, weight: int, description: string)
  type Group = map<Identity, Data>

  function IdOf(s: Server): Identity { Identity(s.kind, s.serverId, if s.kind.Ecs? then "" else s.serverIp) }
  function DataOf(s: Server): Data { Data(s.port, s.weight, s.description) }

  /** The comparison is an equivalence on supported types, and on none other. */
  lemma EqualityIsEquivalence(a: Server, b: Server, c: Server)
    ensures IsServerEqual(a, a) <==> Supported(a)
    ensures IsServerEqual(a, b) <==> IsServerEqual(b, a)
    ensures IsServerEqual(a, b) && IsServerEqual(b, c) ==> IsServerEqual(a, c)
    ensures IsServerEqual(a, b) <==> Supported(a) && IdOf(a) == IdOf(b)
    ensures IsServerEqual(a, b) <==>
              a.kind == b.kind && a.kind in {Ecs, Eni, Ip} && a.serverId == b.serverId
              && (a.kind != Ecs ==> a.serverIp == b.serverIp)
  {
  }

  ghost predicate Has(s: seq<Server>, k: Identity) { exists b :: b in s && IdOf(b) == k }

  /** Servers of one list with the same identity carry the same data. */
  ghost predicate Consistent(s: seq<Server>) {
    forall b, b' :: b in s && b' in s && IdOf(b) == IdOf(b') ==> DataOf(b) == DataOf(b')
  }

  ghost predicate AllSupported(s: seq<Server>) { forall b :: b in s ==> Supported(b) }

  // ---- what the cloud calls do -----------------------------------------------------------

  datatype Operation = Add | Remove | Update

  /** One server of a call. Updating ignores an absent one. */
  function ApplyOne(op: Operation, g: Group, b: Server): Group {
    match op
    case Add => g[IdOf(b) := DataOf(b)]
    case Remove => g - {IdOf(b)}
    case Update => if IdOf(b) in g then g[IdOf(b) := DataOf(b)] else g
  }

  function Apply(op: Operation, g: Group, s: seq<Server>): Group {
    if s == [] then g else ApplyOne(op, Apply(op, g, s[..|s| - 1]), s[|s| - 1])
  }

  lemma {:induction false} ApplyConcat(op: Operation, g: Group, s: seq<Server>, t: seq<Server>)
    ensures Apply(op, g, s + t) == Apply(op, Apply(op, g, s), t)
  {
    if t == [] {
      assert s + t == s;
    } else {
      ApplyConcat(op, g, s, t[..|t| - 1]);
      assert (s + t)[..|s + t| - 1] == s + t[..|t| - 1];
    }
  }

  lemma HasStep(s: seq<Server>, k: Identity)
    requires s != []
    ensures Has(s, k) <==> Has(s[..|s| - 1], k) || IdOf(s[|s| - 1]) == k
  {
    assert s == s[..|s| - 1] + [s[|s| - 1]];
  }

  /** What a call leaves at one identity. */
  lemma {:induction false} ApplyAt(op: Operation, g: Group, s: seq<Server>, k: Identity)
    ensures !Has(s, k) ==> (k in Apply(op, g, s) <==> k in g) && (k in g ==> Apply(op, g, s)[k] == g[k])
    ensures Has(s, k) ==> (k in Apply(op, g, s) <==> op.Add? || (op.Update? && k in g))
    ensures Has(s, k) && k in Apply(op, g, s) ==> Stores(s, k, Apply(op, g, s)[k])
  {
    if s != [] {
      var front, x := s[..|s| - 1], s[|s| - 1];
      ApplyAt(op, g, front, k);
      HasStep(s, k);
      if Has(front, k) && k in Apply(op, g, front) {
        StoresMore(s, k, Apply(op, g, front)[k]);
      }
      assert x in s;
    }
  }

  lemma StoresMore(s: seq<Server>, k: Identity, d: Data)
    requires s != [] && Stores(s[..|s| - 1], k, d)
    ensures Stores(s, k, d)
  {
    assert s == s[..|s| - 1] + [s[|s| - 1]];
  }

  /** A group changed at most by storing servers of added and dropping identities of dropped. */
  ghost predicate Evolves(g: Group, g': Group, added: seq<Server>, dropped: seq<Server>) {
    && (forall k :: k in g ==> k in g' || Has(dropped, k))
    && (forall k :: k in g' ==> (k in g && g'[k] == g[k]) || Stores(added, k, g'[k]))
  }

  ghost predicate Stores(s: seq<Server>, k: Identity, d: Data) { exists b :: b in s && IdOf(b) == k && DataOf(b) == d }

  lemma EvolvesFurther(g: Group, g': Group, g'': Group, added: seq<Server>, dropped: seq<Server>, a: seq<Server>,
                       d: seq<Server>)
    requires Evolves(g, g', added, dropped) && Evolves(g', g'', a, d)
    requires (forall b :: b in a ==> b in added) && (forall b :: b in d ==> b in dropped)
    ensures Evolves(g, g'', added, dropped)
  {
    assert forall k :: Has(d, k) ==> Has(dropped, k);
    assert forall k, x :: Stores(a, k, x) ==> Stores(added, k, x);
  }

  function AddedBy(op: Operation, s: seq<Server>): seq<Server> { if op.Remove? then [] else s }
  function DroppedBy(op: Operation, s: seq<Server>): seq<Server> { if op.Remove? then s else [] }

  lemma ApplyEvolves(op: Operation, g: Group, s: seq<Server>)
    ensures Evolves(g, Apply(op, g, s), AddedBy(op, s), DroppedBy(op, s))
  {
    forall k { ApplyAt(op, g, s, k); }
  }

  lemma ChunkStep(op: Operation, g0: Group, g: Group, s: seq<Server>, begin: nat, end: nat)
    requires begin <= end <= |s| && Evolves(g0, g, AddedBy(op, s), DroppedBy(op, s))
    ensures Evolves(g0, Apply(op, g, s[begin..end]), AddedBy(op, s), DroppedBy(op, s))
    ensures g == Apply(op, g0, s[..begin]) ==> Apply(op, g, s[begin..end]) == Apply(op, g0, s[..end])
  {
    var chunk := s[begin..end];
    assert s[..end] == s[..begin] + chunk;
    ApplyConcat(op, g0, s[..begin], chunk);
    ApplyEvolves(op, g, chunk);
    EvolvesFurther(g0, g, Apply(op, g, chunk), AddedBy(op, s), DroppedBy(op, s),
                   AddedBy(op, chunk), DroppedBy(op, chunk));
  }

  /** The group in the cloud. Its n-th call fails when fault(n), without effect. */
  class NlbGroup {
    var servers: Group
    var calls: nat
    const fault: nat -> bool

    constructor (servers: Group, fault: nat -> bool)
      ensures this.servers == servers && this.fault == fault
    {
      this.servers, this.fault, calls := servers, fault, 0;
    }

    method Call(op: Operation, s: seq<Server>) returns (ok: bool)
      modifies this
      ensures servers == if ok then Apply(op, old(servers), s) else old(servers)
      ensures calls == old(calls) + 1 && (ok <==> !fault(old(calls)))
    {
      calls := calls + 1;
      ok := !fault(calls - 1);
      if ok { servers := Apply(op, servers, s); }
    }

    /** A list in chunks; a failed chunk does not stop the later ones. */
    method Batch(op: Operation, s: seq<Server>, batchSize: int) returns (ok: bool)
      modifies this
      ensures Evolves(old(servers), servers, AddedBy(op, s), DroppedBy(op, s))
      ensures ok ==> servers == Apply(op, old(servers), s)
      ensures calls == old(calls) + Chunks(0, |s|, batchSize)
      ensures (forall n :: !fault(n)) ==> ok
    {
      ok := true;
      var begin := 0;
      while begin < |s|
        invariant 0 <= begin <= |s|
        invariant Evolves(old(servers), servers, AddedBy(op, s), DroppedBy(op, s))
        invariant ok ==> servers == Apply(op, old(servers), s[..begin])
        invariant calls + Chunks(begin, |s|, batchSize) == old(calls) + Chunks(0, |s|, batchSize)
        invariant (forall n :: !fault(n)) ==> ok
      {
        var end := ChunkEnd(begin, |s|, batchSize);
        ChunkStep(op, old(servers), servers, s, begin, end);
        var done := Call(op, s[begin..end]);
        if !done { ok := false; }
        begin := end;
      }
      assert s[..|s|] == s;
    }
  }

  // ---- the diff --------------------------------------------------------------------------

  function Stale(local: seq<Server>): Server -> bool {
    (r: Server) => !r.isUserManaged && !exists l :: l in local && IsServerEqual(r, l)
  }
  function Missing(remote: seq<Server>): Server -> bool {
    (l: Server) => !exists r :: r in remote && IsServerEqual(l, r) }

  predicate Outdated(l: Server, r: Server) {
    IsServerEqual(l, r) && (l.port != r.port || l.weight != r.weight || l.description != r.description)
  }

  function Additions(remote: seq<Server>, local: seq<Server>): seq<Server> { Filter(Missing(remote), local) }
  function Deletions(remote: seq<Server>, local: seq<Server>): seq<Server> { Filter(Stale(local), remote) }

  /** The wanted servers that outdate a present one. */
  ghost predicate Revised(updates: seq<Server>, remote: seq<Server>, local: seq<Server>) {
    forall l :: l in updates <==> l in local && exists r :: r in remote && Outdated(l, r)
  }

  method Diff(remote: seq<Server>, local: seq<Server>)
    returns (additions: seq<Server>, deletions: seq<Server>, updates: seq<Server>)
    ensures additions == Additions(remote, local) && deletions == Deletions(remote, local)
            && Revised(updates, remote, local)
  {
    deletions := FindStale(remote, local);
    additions := FindMissing(remote, local);
    updates := FindRevisions(remote, local);
  }

  method FindStale(remote: seq<Server>, local: seq<Server>) returns (deletions: seq<Server>)
    ensures deletions == Deletions(remote, local)
  {
    deletions := [];
    for i := 0 to |remote|
      invariant deletions == Filter(Stale(local), remote[..i])
    {
      FilterStep(Stale(local), remote, i);
      if remote[i].isUserManaged { continue; }
      var found := Matches(remote[i], local);
      if !found { deletions := deletions + [remote[i]]; }
    }
    assert remote[..|remote|] == remote;
  }

  method FindMissing(remote: seq<Server>, local: seq<Server>) returns (additions: seq<Server>)
    ensures additions == Additions(remote, local)
  {
    additions := [];
    for i := 0 to |local|
      invariant additions == Filter(Missing(remote), local[..i])
    {
      FilterStep(Missing(remote), local, i);
      var found := Matches(local[i], remote);
      if !found { additions := additions + [local[i]]; }
    }
    assert local[..|local|] == local;
  }

  method FindRevisions(remote: seq<Server>, local: seq<Server>) returns (updates: seq<Server>)
    ensures Revised(updates, remote, local)
  {
    updates := [];
    for i := 0 to |local|
      invariant Revised(updates, remote, local[..i])
    {
      var more := Revisions(local[i], remote);
      updates := updates + more;
      assert local[..i + 1] == local[..i] + [local[i]];
    }
    assert local[..|local|] == local;
  }

  method Matches(x: Server, s: seq<Server>) returns (found: bool)
    ensures found <==> exists y :: y in s && IsServerEqual(x, y)
  {
    found := false;
    for j := 0 to |s|
      invariant found <==> exists y :: y in s[..j] && IsServerEqual(x, y)
    {
      assert s[..j + 1] == s[..j] + [s[j]];
      if IsServerEqual(x, s[j]) { found := true; }
    }
    assert s[..|s|] == s;
  }

  /** A wanted server once for each present one it outdates. */
  method Revisions(l: Server, remote: seq<Server>) returns (updates: seq<Server>)
    ensures forall x :: x in updates <==> x == l && exists r :: r in remote && Outdated(l, r)
  {
    updates := [];
    for j := 0 to |remote|
      invariant forall x :: x in updates <==> x == l && exists r :: r in remote[..j] && Outdated(l, r)
    {
      assert remote[..j + 1] == remote[..j] + [remote[j]];
      if Outdated(l, remote[j]) { updates := updates + [l]; }
    }
    assert remote[..|remote|] == remote;
  }

  // ---- convergence -----------------------------------------------------------------------

  /** The servers of a group that the service does not manage. */
  function UserPart(g: Group, owner: Owner): Group {
    map k | k in g && !NlbManagedBy(g[k].description, owner) :: g[k]
  }

  function Desired(g: Group, local: seq<Server>, owner: Owner): Group { Apply(Add, UserPart(g, owner), local) }

  /** A description of a group: all of it and nothing else, the foreign ones marked. */
  ghost predicate Describes(remote: seq<Server>, g: Group, owner: Owner) {
    && (forall k :: k in g ==> Has(remote, k))
    && (forall r :: r in remote ==>
          Supported(r) && IdOf(r) in g && DataOf(r) == g[IdOf(r)]
          && r.isUserManaged == !NlbManagedBy(r.description, owner))
  }

  lemma DiffByIdentity(remote: seq<Server>, local: seq<Server>, g: Group, owner: Owner)
    requires Describes(remote, g, owner) && AllSupported(local)
    ensures forall l :: l in Additions(remote, local) <==> l in local && IdOf(l) !in g
    ensures forall k :: Has(Deletions(remote, local), k) <==>
              k in g && NlbManagedBy(g[k].description, owner) && !Has(local, k)
    ensures forall l :: l in local && IdOf(l) in g ==>
              (g[IdOf(l)] != DataOf(l) <==> exists r :: r in remote && Outdated(l, r))
  {
    forall k | k in g && NlbManagedBy(g[k].description, owner) && !Has(local, k)
      ensures Has(Deletions(remote, local), k)
    {
      var r :| r in remote && IdOf(r) == k;
      assert r in Deletions(remote, local);
    }
    forall l | l in local && IdOf(l) in g
      ensures g[IdOf(l)] != DataOf(l) <==> exists r :: r in remote && Outdated(l, r)
      ensures l !in Additions(remote, local)
    {
      var r :| r in remote && IdOf(r) == IdOf(l);
      assert IsServerEqual(l, r);
      assert g[IdOf(l)] != DataOf(l) ==> Outdated(l, r);
    }
  }

  /** What add, remove and update leave at one identity is what is desired there. */
  lemma ConvergesAt(g: Group, remote: seq<Server>, local: seq<Server>, owner: Owner, updates: seq<Server>, k: Identity)
    requires Describes(remote, g, owner) && AllSupported(local) && Consistent(local)
    requires Revised(updates, remote, local)
    ensures var add, del := Additions(remote, local), Deletions(remote, local);
            var g3, want := Apply(Update, Apply(Remove, Apply(Add, g, add), del), updates), Desired(g, local, owner);
            (k in g3 <==> k in want) && (k in g3 ==> g3[k] == want[k])
  {
    var add, del := Additions(remote, local), Deletions(remote, local);
    DiffByIdentity(remote, local, g, owner);
    var g1 := Apply(Add, g, add);
    var g2 := Apply(Remove, g1, del);
    ApplyAt(Add, g, add, k);
    ApplyAt(Remove, g1, del, k);
    ApplyAt(Update, g2, updates, k);
    ApplyAt(Add, UserPart(g, owner), local, k);
    if Has(local, k) {
      var l :| l in local && IdOf(l) == k;
      assert k !in g ==> l in add;
    }
  }

  lemma Converges(g: Group, remote: seq<Server>, local: seq<Server>, owner: Owner, updates: seq<Server>)
    requires Describes(remote, g, owner) && AllSupported(local) && Consistent(local)
    requires Revised(updates, remote, local)
    ensures Apply(Update, Apply(Remove, Apply(Add, g, Additions(remote, local)), Deletions(remote, local)), updates)
         == Desired(g, local, owner)
  {
    forall k { ConvergesAt(g, remote, local, owner, updates, k); }
  }

  /** Once converged, a further diff is empty. */
  lemma FurtherDiffIsEmpty(g: Group, local: seq<Server>, owner: Owner, remote: seq<Server>)
    requires AllSupported(local) && Consistent(local) && Describes(remote, Desired(g, local, owner), owner)
    ensures Additions(remote, local) == [] && Deletions(remote, local) == []
    ensures !exists l, r :: l in local && r in remote && Outdated(l, r)
  {
    var want := Desired(g, local, owner);
    DiffByIdentity(remote, local, want, owner);
    forall k { ApplyAt(Add, UserPart(g, owner), local, k); }
    forall l | l in local
      ensures IdOf(l) in want && want[IdOf(l)] == DataOf(l)
    {
      assert Has(local, IdOf(l));
    }
    FilterEmpty(Missing(remote), local);
    FilterEmpty(Stale(local), remote);
    forall r | r in remote
      ensures !Stale(local)(r)
    {
      assert !Has(Deletions(remote, local), IdOf(r));
      assert r !in Deletions(remote, local);
    }
    forall l | l in local
      ensures !Missing(remote)(l)
    {
      assert l !in Additions(remote, local);
    }
  }

  /** A list with clashing or unsupported servers is never settled, whatever the group holds. */
  lemma ClashNeverSettles(g: Group, local: seq<Server>, owner: Owner, remote: seq<Server>)
    requires Describes(remote, g, owner) && Additions(remote, local) == []
    requires !exists l, r :: l in local && r in remote && Outdated(l, r)
    ensures AllSupported(local) && Consistent(local)
  {
    FilterEmpty(Missing(remote), local);
    forall l | l in local
      ensures Supported(l) && IdOf(l) in g && DataOf(l) == g[IdOf(l)]
    {
      assert !Missing(remote)(l);
      var r :| r in remote && IsServerEqual(l, r);
      assert !Outdated(l, r);
    }
  }

  /** Reconciling the servers of a group. Whatever fails, only wanted servers are stored and
      only the service's own are dropped; when nothing fails, the group is as desired. */
  method UpdateServerGroupServers(group: NlbGroup, remote: seq<Server>, local: seq<Server>, batchSize: int,
                                  ghost owner: Owner)
    returns (ok: bool)
    requires Describes(remote, group.servers, owner)
    modifies group
    ensures Evolves(old(group.servers), group.servers, local, Deletions(remote, local))
    ensures forall k :: k in UserPart(old(group.servers), owner) ==>
              k in group.servers && (group.servers[k] == old(group.servers)[k] || Stores(local, k, group.servers[k]))
    ensures ok && AllSupported(local) && Consistent(local) ==>
              group.servers == Desired(old(group.servers), local, owner)
    ensures (forall n :: !group.fault(n)) ==> ok
  {
    ghost var g := group.servers;
    var add, del, update := Diff(remote, local);
    ok := true;
    if |add| > 0 {
      var done := group.Batch(Add, add, batchSize);
      ok := ok && done;
    }
    ghost var g1 := group.servers;
    if |del| > 0 {
      var done := group.Batch(Remove, del, batchSize);
      ok := ok && done;
    }
    ghost var g2 := group.servers;
    if |update| > 0 {
      var done := group.Batch(Update, update, batchSize);
      ok := ok && done;
    }
    CallsEvolve(g, g1, g2, group.servers, add, del, update, local);
    UsersKept(g, group.servers, remote, local, owner);
    if AllSupported(local) && Consistent(local) { Converges(g, remote, local, owner, update); }
  }

  lemma CallsEvolve(g: Group, g1: Group, g2: Group, g3: Group, add: seq<Server>, del: seq<Server>,
                    update: seq<Server>, local: seq<Server>)
    requires Evolves(g, g1, add, []) && Evolves(g1, g2, [], del) && Evolves(g2, g3, update, [])
    requires (forall b :: b in add ==> b in local) && (forall b :: b in update ==> b in local)
    ensures Evolves(g, g3, local, del)
  {
    EvolvesFurther(g, g, g1, local, del, add, []);
    EvolvesFurther(g, g1, g2, local, del, [], del);
    EvolvesFurther(g, g2, g3, local, del, update, []);
  }

  lemma UsersKept(g: Group, g': Group, remote: seq<Server>, local: seq<Server>, owner: Owner)
    requires Describes(remote, g, owner) && Evolves(g, g', local, Deletions(remote, local))
    ensures forall k :: k in UserPart(g, owner) ==> k in g' && (g'[k] == g[k] || Stores(local, k, g'[k]))
  {
    assert forall k :: Has(Deletions(remote, local), k) ==> k in g && NlbManagedBy(g[k].description, owner);
  }
}
