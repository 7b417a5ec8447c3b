/** Bringing the tags of a load balancer in line with the wanted ones, leaving the
    controller's default tags alone. */
module Tags {
  import opened Common

  datatype Tag = Tag(key: string, value: string)

  type TagMap = map<string, string>

  const REUSEKEY := "kubernetes.reused.by.user"

  function Keys(s: seq<Tag>): set<string> { set t | t in s :: t.key }

  ghost predicate DistinctKeys(s: seq<Tag>) {
    forall i, j :: 0 <= i < j < |s| ==> s[i].key != s[j].key
  }

  /** A list of all the tags. */
  ghost predicate Lists(s: seq<Tag>, m: TagMap) {
    DistinctKeys(s) && (forall t :: t in s ==> t.key in m && m[t.key] == t.value) && forall k :: k in m ==> k in Keys(s)
  }

  /** Tags written one after the other; also what a loop filling a map from them gives. */
  function Write(m: TagMap, s: seq<Tag>): TagMap {
    if s == [] then m else Write(m, s[..|s| - 1])[s[|s| - 1].key := s[|s| - 1].value]
  }

  lemma {:induction false} WriteKeys(m: TagMap, s: seq<Tag>)
    ensures Write(m, s).Keys == m.Keys + Keys(s)
    ensures forall k :: k in m && k !in Keys(s) ==> Write(m, s)[k] == m[k]
  {
    if s != [] {
      WriteKeys(m, s[..|s| - 1]);
      assert s == s[..|s| - 1] + [s[|s| - 1]];
      assert Keys(s) == Keys(s[..|s| - 1]) + {s[|s| - 1].key};
    }
  }

  lemma {:induction false} WriteValues(m: TagMap, s: seq<Tag>, t: Tag)
    requires DistinctKeys(s) && t in s
    ensures t.key in Write(m, s) && Write(m, s)[t.key] == t.value
  {
    var front, x := s[..|s| - 1], s[|s| - 1];
    if t != x {
      assert s == front + [x];
      var i :| 0 <= i < |s| && s[i] == t;
      assert front[i] == t;
      WriteValues(m, front, t);
    }
  }

  // ---- the diff --------------------------------------------------------------------------

  function Differs(remote: TagMap): Tag -> bool { (t: Tag) => !(t.key in remote && remote[t.key] == t.value) }
  function NotAmong(keys: set<string>): Tag -> bool { (t: Tag) => t.key !in keys }

  method DiffLoadBalancerTags(local: seq<Tag>, remote: seq<Tag>) returns (needTag: seq<Tag>, needUntag: seq<Tag>)
    ensures needTag == Filter(Differs(Write(map[], remote)), local)
    ensures needUntag == Filter(NotAmong(Keys(local)), remote)
  {
    var remoteMap: TagMap, localMap: TagMap := map[], map[];
    needTag, needUntag := [], [];
    for i := 0 to |remote|
      invariant remoteMap == Write(map[], remote[..i])
    {
      assert remote[..i + 1][..i] == remote[..i];
      remoteMap := remoteMap[remote[i].key := remote[i].value];
    }
    assert remote[..|remote|] == remote;
    for i := 0 to |local|
      invariant localMap == Write(map[], local[..i])
      invariant needTag == Filter(Differs(remoteMap), local[..i])
    {
      assert local[..i + 1][..i] == local[..i];
      FilterStep(Differs(remoteMap), local, i);
      var l := local[i];
      localMap := localMap[l.key := l.value];
      if l.key in remoteMap && remoteMap[l.key] == l.value { continue; }
      needTag := needTag + [l];
    }
    assert local[..|local|] == local;
    WriteKeys(map[], local);
    for i := 0 to |remote|
      invariant needUntag == Filter(NotAmong(Keys(local)), remote[..i])
    {
      FilterStep(NotAmong(Keys(local)), remote, i);
      if remote[i].key !in localMap { needUntag := needUntag + [remote[i]]; }
    }
  }

  // ---- the update ------------------------------------------------------------------------

  class TagCloud {
    var tags: TagMap
    var calls: nat
    const fault: nat -> bool

    constructor (tags: TagMap, fault: nat -> bool)
      ensures this.tags == tags && this.fault == fault
    {
      this.tags, this.fault, calls := tags, fault, 0;
    }

    method TagResource(s: seq<Tag>) returns (ok: bool)
      modifies this
      ensures tags == if ok then Write(old(tags), s) else old(tags)
      ensures calls == old(calls) + 1 && (ok <==> !fault(old(calls)))
    {
      calls := calls + 1;
      ok := !fault(calls - 1);
      if ok { tags := Write(tags, s); }
    }

    method UntagResources(keys: seq<string>) returns (ok: bool)
      modifies this
      ensures tags == if ok then old(tags) - (set k | k in keys) else old(tags)
      ensures calls == old(calls) + 1 && (ok <==> !fault(old(calls)))
    {
      calls := calls + 1;
      ok := !fault(calls - 1);
      if ok { tags := tags - set k | k in keys; }
    }
  }

  /** The tags of the list whose key is none of the default ones. */
  method DropDefaults(s: seq<Tag>, defaults: seq<Tag>) returns (r: seq<Tag>)
    ensures r == Filter(NotAmong(Keys(defaults)), s)
  {
    r := [];
    for i := 0 to |s|
      invariant r == Filter(NotAmong(Keys(defaults)), s[..i])
    {
      FilterStep(NotAmong(Keys(defaults)), s, i);
      var found := false;
      for j := 0 to |defaults|
        invariant !found && forall d :: d in defaults[..j] ==> d.key != s[i].key
      {
        if s[i].key == defaults[j].key {
          found := true;
          break;
        }
      }
      if !found { r := r + [s[i]]; }
    }
    assert s[..|s|] == s;
  }

  /** The default keys of the service, with the mark of a reused load balancer. */
  function DefaultKeys(defaults: seq<Tag>, reused: bool): set<string> {
    Keys(defaults) + if reused then {REUSEKEY} else {}
  }

  function NeedTag(local: seq<Tag>, remote: seq<Tag>, kept: set<string>): seq<Tag> {
    Filter(Differs(Write(map[], Filter(NotAmong(kept), remote))), local)
  }

  function NeedUntag(local: seq<Tag>, remote: seq<Tag>, kept: set<string>): seq<Tag> {
    Filter(NotAmong(Keys(local)), Filter(NotAmong(kept), remote))
  }

  /** What the two calls make of the tags. */
  ghost function Updated(m: TagMap, local: seq<Tag>, remote: seq<Tag>, kept: set<string>): TagMap {
    Write(m, NeedTag(local, remote, kept)) - Keys(NeedUntag(local, remote, kept))
  }

  lemma {:induction false} DistinctFiltered(p: Tag -> bool, s: seq<Tag>)
    requires DistinctKeys(s)
    ensures DistinctKeys(Filter(p, s))
  {
    if s != [] {
      var front, x := s[..|s| - 1], s[|s| - 1];
      DistinctFiltered(p, front);
      var f := Filter(p, front);
      forall i | 0 <= i < |f|
        ensures f[i].key != x.key
      {
        assert f[i] in front;
        var j :| 0 <= j < |front| && front[j] == f[i];
        assert s[j] == f[i];
      }
    }
  }

  lemma NeedTagIs(m: TagMap, local: seq<Tag>, remote: seq<Tag>, kept: set<string>, l: Tag)
    requires Lists(remote, m) && l in local
    ensures l in NeedTag(local, remote, kept) <==> l.key in kept || l.key !in m || m[l.key] != l.value
  {
    var shown := Filter(NotAmong(kept), remote);
    DistinctFiltered(NotAmong(kept), remote);
    WriteKeys(map[], shown);
    if l.key in Keys(shown) {
      var t :| t in shown && t.key == l.key;
      WriteValues(map[], shown, t);
    } else if l.key in m {
      var t :| t in remote && t.key == l.key;
      assert t !in shown;
    }
  }

  lemma SameKeySameTag(s: seq<Tag>, l: Tag)
    requires DistinctKeys(s) && l in s
    ensures forall x :: x in s && x.key == l.key ==> x == l
  {
    forall x | x in s && x.key == l.key
      ensures x == l
    {
      var i, j :| 0 <= i < |s| && s[i] == x && 0 <= j < |s| && s[j] == l;
    }
  }

  lemma NeedUntagIs(m: TagMap, local: seq<Tag>, remote: seq<Tag>, kept: set<string>)
    requires Lists(remote, m)
    ensures Keys(NeedUntag(local, remote, kept)) == m.Keys - kept - Keys(local)
  {
    var del := NeedUntag(local, remote, kept);
    forall k | k in m && k !in kept && k !in Keys(local)
      ensures k in Keys(del)
    {
      var t :| t in remote && t.key == k;
      assert t in del;
    }
  }

  lemma UpdatedAtLocal(m: TagMap, local: seq<Tag>, remote: seq<Tag>, kept: set<string>, l: Tag)
    requires Lists(remote, m) && DistinctKeys(local) && l in local
    ensures l.key in Updated(m, local, remote, kept) && Updated(m, local, remote, kept)[l.key] == l.value
  {
    var add := NeedTag(local, remote, kept);
    assert l.key !in Keys(NeedUntag(local, remote, kept)) by { NeedUntagIs(m, local, remote, kept); }
    NeedTagIs(m, local, remote, kept, l);
    WriteKeys(m, add);
    if l in add {
      DistinctFiltered(Differs(Write(map[], Filter(NotAmong(kept), remote))), local);
      WriteValues(m, add, l);
    } else {
      SameKeySameTag(local, l);
      assert l.key !in Keys(add);
    }
  }

  lemma UpdatedElsewhere(m: TagMap, local: seq<Tag>, remote: seq<Tag>, kept: set<string>, k: string)
    requires Lists(remote, m) && k !in Keys(local)
    ensures k in Updated(m, local, remote, kept) <==> k in m && k in kept
    ensures k in Updated(m, local, remote, kept) ==> Updated(m, local, remote, kept)[k] == m[k]
  {
    NeedUntagIs(m, local, remote, kept);
    WriteKeys(m, NeedTag(local, remote, kept));
    assert k !in Keys(NeedTag(local, remote, kept));
  }

  /** With distinct local keys: a local tag has its local value, another tag is gone unless its
      key is a default one, and then it is as before. So no default key is ever untagged. */
  lemma UpdatedIs(m: TagMap, local: seq<Tag>, remote: seq<Tag>, kept: set<string>)
    requires Lists(remote, m) && DistinctKeys(local)
    ensures var m' := Updated(m, local, remote, kept);
            && (forall l :: l in local ==> l.key in m' && m'[l.key] == l.value)
            && (forall k :: k !in Keys(local) ==> (k in m' <==> k in m && k in kept))
            && (forall k :: k !in Keys(local) && k in m' ==> m'[k] == m[k])
  {
    forall l | l in local { UpdatedAtLocal(m, local, remote, kept, l); }
    forall k | k !in Keys(local) { UpdatedElsewhere(m, local, remote, kept, k); }
  }

  /** The values of the default tags survive exactly when no local tag claims a default key
      with another value: local tags are not filtered by the default keys. */
  lemma DefaultsSurviveExactly(m: TagMap, local: seq<Tag>, remote: seq<Tag>, kept: set<string>)
    requires Lists(remote, m) && DistinctKeys(local)
    ensures (forall k :: k in kept && k in m ==>
               k in Updated(m, local, remote, kept) && Updated(m, local, remote, kept)[k] == m[k])
            <==> (forall l :: l in local && l.key in kept && l.key in m ==> l.value == m[l.key])
  {
    var m' := Updated(m, local, remote, kept);
    UpdatedIs(m, local, remote, kept);
    if forall l :: l in local && l.key in kept && l.key in m ==> l.value == m[l.key] {
      forall k | k in kept && k in m
        ensures k in m' && m'[k] == m[k]
      {
        if k in Keys(local) {
          var l :| l in local && l.key == k;
        }
      }
    }
  }

  /** A further update finds nothing to do exactly when no local tag has a default key. */
  lemma FurtherUpdateIsEmpty(m: TagMap, local: seq<Tag>, remote: seq<Tag>, kept: set<string>, remote': seq<Tag>)
    requires Lists(remote, m) && DistinctKeys(local) && Lists(remote', Updated(m, local, remote, kept))
    ensures Keys(NeedUntag(local, remote', kept)) == {}
    ensures NeedTag(local, remote', kept) == [] <==> forall l :: l in local ==> l.key !in kept
  {
    var m' := Updated(m, local, remote, kept);
    UpdatedIs(m, local, remote, kept);
    NeedUntagIs(m', local, remote', kept);
    forall l | l in local
      ensures l in NeedTag(local, remote', kept) <==> l.key in kept
    {
      NeedTagIs(m', local, remote', kept, l);
    }
    FilterEmpty(Differs(Write(map[], Filter(NotAmong(kept), remote'))), local);
  }

  method KeysOf(s: seq<Tag>) returns (keys: seq<string>)
    ensures (set k | k in keys) == Keys(s)
  {
    keys := [];
    for i := 0 to |s|
      invariant forall k :: k in keys <==> k in Keys(s[..i])
    {
      assert s[..i + 1] == s[..i] + [s[i]];
      assert Keys(s[..i + 1]) == Keys(s[..i]) + {s[i].key};
      keys := keys + [s[i].key];
    }
    assert s[..|s|] == s;
  }

  /** A list is sent by one call, an empty one by none. */
  function Count(s: seq<Tag>): nat { if s == [] then 0 else 1 }

  /** The two calls; the second is not made when the first fails. */
  method ApplyTagDiff(cloud: TagCloud, needTag: seq<Tag>, needUntag: seq<Tag>) returns (ok: bool)
    modifies cloud
    ensures ok ==> cloud.tags == Write(old(cloud.tags), needTag) - Keys(needUntag)
    ensures !ok ==> cloud.calls > 0 && cloud.fault(cloud.calls - 1)
                    && (cloud.tags == old(cloud.tags) || cloud.tags == Write(old(cloud.tags), needTag))
    ensures ok ==> cloud.calls == old(cloud.calls) + Count(needTag) + Count(needUntag)
  {
    WriteKeys(cloud.tags, needTag);
    if |needTag| != 0 {
      ok := cloud.TagResource(needTag);
      if !ok { return; }
    }
    if |needUntag| != 0 {
      var untags := KeysOf(needUntag);
      ok := cloud.UntagResources(untags);
      return;
    }
    return true;
  }

  /** The keys that stay whatever is wanted: the default ones, and on a reused load balancer the
      one that marks it as reused. */
  ghost predicate Protected(k: string, defaults: seq<Tag>, reused: bool) {
    (exists d :: d in defaults && d.key == k) || (reused && k == "kubernetes.reused.by.user")
  }

  /** The tags are the local ones, and of the others the protected ones as they were. */
  ghost predicate InLine(before: TagMap, after: TagMap, local: seq<Tag>, defaults: seq<Tag>, reused: bool) {
    && (forall l :: l in local ==> l.key in after && after[l.key] == l.value)
    && (forall k :: k !in Keys(local) ==>
          && (k in after <==> k in before && Protected(k, defaults, reused))
          && (k in after ==> after[k] == before[k]))
  }

  lemma ProtectedAreKept(defaults: seq<Tag>, reused: bool)
    ensures forall k :: k in DefaultKeys(defaults, reused) <==> Protected(k, defaults, reused)
  {
  }

  lemma UpdatedIsInLine(m: TagMap, local: seq<Tag>, remote: seq<Tag>, defaults: seq<Tag>, reused: bool)
    requires Lists(remote, m) && DistinctKeys(local)
    ensures InLine(m, Updated(m, local, remote, DefaultKeys(defaults, reused)), local, defaults, reused)
  {
    ProtectedAreKept(defaults, reused);
    UpdatedIs(m, local, remote, DefaultKeys(defaults, reused));
  }

  /** Updating the tags, by as many calls as there is to do. Without local tags nothing is done,
      so tags wanted before stay. */
  method UpdateLoadBalancerTags(cloud: TagCloud, local: seq<Tag>, remote: seq<Tag>, defaults: seq<Tag>, reused: bool)
    returns (ok: bool)
    requires Lists(remote, cloud.tags)
    modifies cloud
    ensures local == [] ==> ok && cloud.tags == old(cloud.tags) && cloud.calls == old(cloud.calls)
    ensures ok && local != [] ==>
              && cloud.tags == Updated(old(cloud.tags), local, remote, DefaultKeys(defaults, reused))
              && cloud.calls == old(cloud.calls) + Count(NeedTag(local, remote, DefaultKeys(defaults, reused)))
                                + Count(NeedUntag(local, remote, DefaultKeys(defaults, reused)))
    ensures ok && local != [] && DistinctKeys(local) ==>
              InLine(old(cloud.tags), cloud.tags, local, defaults, reused)
    ensures forall k :: Protected(k, defaults, reused) && k in old(cloud.tags) ==> k in cloud.tags
    ensures !ok ==>
              && cloud.calls > 0 && cloud.fault(cloud.calls - 1)
              && (cloud.tags == old(cloud.tags)
                  || cloud.tags == Write(old(cloud.tags), NeedTag(local, remote, DefaultKeys(defaults, reused))))
  {
    if |local| == 0 { return true; }
    ghost var m, kept := cloud.tags, DefaultKeys(defaults, reused);
    var needTag, needUntag := FindTagDiff(local, remote, defaults, reused);
    ok := ApplyTagDiff(cloud, needTag, needUntag);
    if ok && DistinctKeys(local) { UpdatedIsInLine(m, local, remote, defaults, reused); }
    ProtectedSurvive(m, cloud.tags, local, remote, defaults, reused);
  }

  /** What is to be tagged and untagged: the default tags of the remote side are set aside. */
  method FindTagDiff(local: seq<Tag>, remote: seq<Tag>, defaults: seq<Tag>, reused: bool)
    returns (needTag: seq<Tag>, needUntag: seq<Tag>)
    ensures needTag == NeedTag(local, remote, DefaultKeys(defaults, reused))
    ensures needUntag == NeedUntag(local, remote, DefaultKeys(defaults, reused))
  {
    var defaultTags := defaults;
    if reused { defaultTags := defaultTags + [Tag(REUSEKEY, "true")]; }
    assert Keys(defaultTags) == DefaultKeys(defaults, reused);
    var remoteTags := DropDefaults(remote, defaultTags);
    needTag, needUntag := DiffLoadBalancerTags(local, remoteTags);
  }

  lemma ProtectedSurvive(m: TagMap, m': TagMap, local: seq<Tag>, remote: seq<Tag>, defaults: seq<Tag>, reused: bool)
    requires Lists(remote, m)
    requires var kept := DefaultKeys(defaults, reused);
             || m' == Updated(m, local, remote, kept) || m' == m || m' == Write(m, NeedTag(local, remote, kept))
    ensures forall k :: Protected(k, defaults, reused) && k in m ==> k in m'
  {
    ProtectedAreKept(defaults, reused);
    NeedUntagIs(m, local, remote, DefaultKeys(defaults, reused));
    WriteKeys(m, NeedTag(local, remote, DefaultKeys(defaults, reused)));
  }
}
