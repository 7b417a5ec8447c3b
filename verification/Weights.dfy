/** Weights of the backends of a group: by pod number or by share of a total, then the
    removal of repeated servers. */
module Weights {
  import opened Common
  import opened Backends

  datatype TrafficPolicy = Local | Cluster | Eni

  const DEFAULT_SERVER_WEIGHT := 100

  // ---- vocabulary ------------------------------------------------------------------------

  /** How many of the backends are on a server. */
  function Count(s: seq<Backend>, id: string): nat {
    if s == [] then 0 else Count(s[..|s| - 1], id) + (if s[|s| - 1].serverId == id then 1 else 0)
  }

  function Total(s: seq<Backend>): int {
    if s == [] then 0 else Total(s[..|s| - 1]) + s[|s| - 1].weight
  }

  ghost predicate HasId(s: seq<Backend>, id: string) { exists i :: 0 <= i < |s| && s[i].serverId == id }

  ghost predicate DistinctIds(s: seq<Backend>) {
    forall i, j :: 0 <= i < j < |s| ==> s[i].serverId != s[j].serverId
  }

  /** Each backend with the weight of its server. */
  function Weigh(s: seq<Backend>, f: string -> int): (r: seq<Backend>)
    ensures |r| == |s| && forall i :: 0 <= i < |s| ==> r[i] == s[i].(weight := f(s[i].serverId))
  {
    seq(|s|, i requires 0 <= i < |s| => s[i].(weight := f(s[i].serverId)))
  }

  /** The first backend of each server. */
  function FirstOfEach(s: seq<Backend>): seq<Backend> {
    if s == [] then []
    else
      var front, b := s[..|s| - 1], s[|s| - 1];
      if Count(front, b.serverId) > 0 then FirstOfEach(front) else FirstOfEach(front) + [b]
  }

  // ---- facts about them ------------------------------------------------------------------

  lemma {:induction false} CountIsPresence(s: seq<Backend>, id: string)
    ensures Count(s, id) > 0 <==> HasId(s, id)
    ensures Count(s, id) <= |s|
  {
    if s != [] {
      var front := s[..|s| - 1];
      CountIsPresence(front, id);
      if HasId(front, id) {
        var i :| 0 <= i < |front| && front[i].serverId == id;
        assert s[i].serverId == id;
      } else if s[|s| - 1].serverId != id {
        forall i | 0 <= i < |s|
          ensures s[i].serverId != id
        {
          if i < |front| { assert front[i].serverId != id; }
        }
      }
    }
  }

  /** Kept servers are distinct, come from the list, and miss none of it. */
  lemma {:induction false} FirstsAreDistinct(s: seq<Backend>)
    ensures DistinctIds(FirstOfEach(s))
    ensures forall b :: b in FirstOfEach(s) ==> b in s
    ensures forall id :: HasId(FirstOfEach(s), id) <==> HasId(s, id)
  {
    if s != [] {
      var front, b := s[..|s| - 1], s[|s| - 1];
      FirstsAreDistinct(front);
      CountIsPresence(front, b.serverId);
      var r, r' := FirstOfEach(s), FirstOfEach(front);
      forall id
        ensures HasId(r, id) <==> HasId(s, id)
      {
        HasIdStep(s, id);
        if r != r' { HasIdStep(r, id); assert r[..|r| - 1] == r'; }
      }
      if r != r' {
        forall i | 0 <= i < |r'|
          ensures r'[i].serverId != b.serverId
        {
          assert HasId(r', r'[i].serverId);
        }
      }
    }
  }

  lemma HasIdStep(s: seq<Backend>, id: string)
    requires s != []
    ensures HasId(s, id) <==> HasId(s[..|s| - 1], id) || s[|s| - 1].serverId == id
  {
    var front := s[..|s| - 1];
    if HasId(s, id) && s[|s| - 1].serverId != id {
      var i :| 0 <= i < |s| && s[i].serverId == id;
      assert front[i].serverId == id;
    }
    if HasId(front, id) {
      var i :| 0 <= i < |front| && front[i].serverId == id;
      assert s[i].serverId == id;
    }
  }

  lemma {:induction false} WeighKeepsCount(s: seq<Backend>, f: string -> int, id: string)
    ensures Count(Weigh(s, f), id) == Count(s, id)
  {
    if s != [] {
      var front := s[..|s| - 1];
      WeighKeepsCount(front, f, id);
      assert Weigh(s, f)[..|s| - 1] == Weigh(front, f);
    }
  }

  /** Weighing commutes with removing repeated servers. */
  lemma {:induction false} WeighThenFirsts(s: seq<Backend>, f: string -> int)
    ensures FirstOfEach(Weigh(s, f)) == Weigh(FirstOfEach(s), f)
  {
    if s != [] {
      var front, b := s[..|s| - 1], s[|s| - 1];
      WeighThenFirsts(front, f);
      WeighKeepsCount(front, f, b.serverId);
      assert Weigh(s, f)[..|s| - 1] == Weigh(front, f);
      assert Weigh(FirstOfEach(front) + [b], f)
          == Weigh(FirstOfEach(front), f) + [b.(weight := f(b.serverId))];
    }
  }

  /** Moving every weight of a list by d, but by one more at id. */
  lemma {:induction false} TotalOfShifted(s: seq<Backend>, f: string -> int, g: string -> int, id: string)
    requires DistinctIds(s)
    requires forall x :: g(x) == f(x) + (if x == id then 1 else 0)
    ensures Total(Weigh(s, g)) == Total(Weigh(s, f)) + (if HasId(s, id) then 1 else 0)
  {
    if s != [] {
      var front := s[..|s| - 1];
      TotalOfShifted(front, f, g, id);
      assert Weigh(s, g)[..|s| - 1] == Weigh(front, g) && Weigh(s, f)[..|s| - 1] == Weigh(front, f);
      HasIdStep(s, id);
    }
  }

  /** Conservation: counted once per server, the pods add up to all of them. */
  lemma {:induction false} CountsAddUp(s: seq<Backend>)
    ensures Total(Weigh(FirstOfEach(s), id => Count(s, id))) == |s|
  {
    if s != [] {
      var front, b := s[..|s| - 1], s[|s| - 1];
      CountsAddUp(front);
      FirstsAreDistinct(front);
      CountIsPresence(front, b.serverId);
      var kept := FirstOfEach(front);
      TotalOfShifted(kept, id => Count(front, id), id => Count(s, id), b.serverId);
      if Count(front, b.serverId) == 0 {
        assert Weigh(kept + [b], id => Count(s, id))[..|kept|] == Weigh(kept, id => Count(s, id));
      }
    }
  }

  // ---- shares of a total -----------------------------------------------------------------

  /** A server's share of the total weight, at least one unless the total is nothing. */
  function Share(weight: nat, pods: nat, all: nat): (r: nat)
    requires all > 0
  {
    if weight == 0 then 0 else if weight * pods / all < 1 then 1 else weight * pods / all
  }

  lemma Division(p: nat, n: nat)
    requires n > 0
    ensures n * (p / n) <= p < n * (p / n) + n
  {
  }

  lemma Scaled(n: int, a: int, b: int)
    requires n > 0
    ensures n * a < n * b <==> a < b
    ensures n * (a + 1) == n * a + n && n * (a + b) == n * a + n * b
  {
  }

  lemma ShareIsClose(weight: nat, pods: nat, all: nat)
    requires weight > 0 && 0 < pods <= all
    ensures 1 <= Share(weight, pods, all) <= weight
    ensures 0 - all < all * Share(weight, pods, all) - weight * pods < all
  {
    var q := weight * pods / all;
    Scaled(weight, 0, pods);
    Scaled(weight, all, pods);
    Division(weight * pods, all);
    Scaled(all, weight, q);
    assert all * q <= all * weight;
  }

  /** The share of a server as a weight of it. */
  function ShareOf(pods: string -> int, weight: nat, all: nat): string -> int {
    (id: string) => if 0 < pods(id) <= all then Share(weight, pods(id), all) else 0
  }

  /** By how much the shares miss the exact sum, times all. */
  function Drift(s: seq<Backend>, pods: string -> int, weight: nat, all: nat): int {
    all * Total(Weigh(s, ShareOf(pods, weight, all))) - weight * Total(Weigh(s, pods))
  }

  lemma TotalStep(s: seq<Backend>, f: string -> int)
    requires s != []
    ensures Total(Weigh(s, f)) == Total(Weigh(s[..|s| - 1], f)) + f(s[|s| - 1].serverId)
  {
    assert Weigh(s, f)[..|s| - 1] == Weigh(s[..|s| - 1], f);
  }

  lemma DriftStep(s: seq<Backend>, pods: string -> int, weight: nat, all: nat)
    requires weight > 0 && all > 0 && s != []
    ensures var id := s[|s| - 1].serverId;
            Drift(s, pods, weight, all) == Drift(s[..|s| - 1], pods, weight, all)
                                           + all * ShareOf(pods, weight, all)(id) - weight * pods(id)
  {
    var id, front := s[|s| - 1].serverId, s[..|s| - 1];
    var f := ShareOf(pods, weight, all);
    TotalStep(s, f);
    TotalStep(s, pods);
    Scaled(all, Total(Weigh(front, f)), f(id));
    Scaled(weight, Total(Weigh(front, pods)), pods(id));
  }

  /** Over servers with at least one pod each, the shares miss the exact sum by less than
      one per server. */
  lemma {:induction false} SharesAddUp(s: seq<Backend>, pods: string -> int, weight: nat, all: nat)
    requires weight > 0 && all > 0 && s != [] && forall i :: 0 <= i < |s| ==> 0 < pods(s[i].serverId) <= all
    ensures 0 - all * |s| < Drift(s, pods, weight, all) < all * |s|
  {
    var front, b := s[..|s| - 1], s[|s| - 1];
    ShareIsClose(weight, pods(b.serverId), all);
    DriftStep(s, pods, weight, all);
    Scaled(all, |front|, 0);
    if front != [] {
      SharesAddUp(front, pods, weight, all);
    } else {
      assert Drift(front, pods, weight, all) == 0;
    }
  }

  // ---- what the algorithms compute -------------------------------------------------------

  /** The weight of a server by the number of its pods. */
  function ByNumber(policy: TrafficPolicy, s: seq<Backend>): string -> int {
    (id: string) => if policy.Local? then Count(s, id) else DEFAULT_SERVER_WEIGHT
  }

  /** The weight of a server by its share of a total; outside local mode every backend has
      the same share. */
  function ByPercent(policy: TrafficPolicy, s: seq<Backend>, weight: nat): string -> int
    requires s != []
  {
    (id: string) => Share(weight, if policy.Local? then Count(s, id) else 1, |s|)
  }

  function Weighted(policy: TrafficPolicy, s: seq<Backend>, weight: Option<nat>): seq<Backend> {
    if s == [] then []
    else Weigh(s, if weight.None? then ByNumber(policy, s) else ByPercent(policy, s, weight.value))
  }

  lemma {:induction false} TotalOfEqual(s: seq<Backend>, w: int)
    requires forall i :: 0 <= i < |s| ==> s[i].weight == w
    ensures Total(s) == w * |s|
  {
    if s != [] {
      TotalOfEqual(s[..|s| - 1], w);
    }
  }

  /** Without a total in local mode: the kept weights are the pods of each server and add up
      to all pods. */
  lemma DefaultLocalConserves(s: seq<Backend>)
    ensures Total(FirstOfEach(Weighted(Local, s, None))) == |s|
    ensures forall b :: b in FirstOfEach(Weighted(Local, s, None)) ==> b.weight == Count(s, b.serverId)
  {
    if s != [] {
      var f := ByNumber(Local, s);
      WeighThenFirsts(s, f);
      CountsAddUp(s);
      assert Weigh(FirstOfEach(s), f) == Weigh(FirstOfEach(s), id => Count(s, id));
    }
  }

  /** With a total w of at least one in local mode: each kept weight lies in 1..w, and the sum
      misses w by less than the number of servers. */
  lemma PercentLocalIsClose(s: seq<Backend>, w: nat)
    requires s != [] && w > 0
    ensures var kept := FirstOfEach(Weighted(Local, s, Some(w)));
            && (forall b :: b in kept ==> 1 <= b.weight <= w)
            && w - |kept| < Total(kept) < w + |kept|
  {
    var pods := (id: string) => Count(s, id);
    var f := ByPercent(Local, s, w);
    var kept := FirstOfEach(s);
    WeighThenFirsts(s, f);
    FirstsAreDistinct(s);
    assert HasId(s, s[0].serverId);
    forall i | 0 <= i < |kept|
      ensures 0 < pods(kept[i].serverId) <= |s| && 1 <= f(kept[i].serverId) <= w
    {
      assert HasId(kept, kept[i].serverId);
      CountIsPresence(s, kept[i].serverId);
      ShareIsClose(w, pods(kept[i].serverId), |s|);
    }
    SharesAddUp(kept, pods, w, |s|);
    CountsAddUp(s);
    assert Weigh(kept, pods) == Weigh(kept, id => Count(s, id));
    assert Weigh(kept, f) == Weigh(kept, ShareOf(pods, w, |s|));
    CloseEnough(|s|, Total(Weigh(kept, f)), w, |kept|);
  }

  lemma CloseEnough(n: nat, t: int, w: int, k: nat)
    requires n > 0 && 0 - n * k < n * t - w * n < n * k
    ensures w - k < t < w + k
  {
    Scaled(n, t, w + k);
    Scaled(n, w - k, t);
    Scaled(n, w - k, k);
    Scaled(n, w, k);
  }

  /** With a total w outside local mode: the sum is in (w - n, w] when there is at least one
      for each of the n backends, and n otherwise. */
  lemma PercentElsewhereIsClose(policy: TrafficPolicy, s: seq<Backend>, w: nat)
    requires s != [] && w > 0 && !policy.Local?
    ensures var t := Total(Weighted(policy, s, Some(w)));
            if w >= |s| then w - |s| < t <= w else t == |s|
  {
    Division(w, |s|);
    Scaled(|s|, w / |s|, 1);
    Scaled(|s|, w / |s|, 0);
    TotalOfEqual(Weighted(policy, s, Some(w)), Share(w, 1, |s|));
  }

  /** A total of zero silences every backend, in every mode. */
  lemma ZeroSilences(policy: TrafficPolicy, s: seq<Backend>)
    ensures forall b :: b in Weighted(policy, s, Some(0)) ==> b.weight == 0
  {
  }

  // ---- the algorithms --------------------------------------------------------------------

  /** How many backends each server has. */
  method CountPods(s: seq<Backend>) returns (pods: map<string, int>)
    ensures forall id :: if id in pods then pods[id] == Count(s, id) else Count(s, id) == 0
  {
    pods := map[];
    for i := 0 to |s|
      invariant forall id :: if id in pods then pods[id] == Count(s[..i], id) else Count(s[..i], id) == 0
    {
      var id := s[i].serverId;
      assert s[..i + 1][..i] == s[..i];
      pods := pods[id := (if id in pods then pods[id] else 0) + 1];
    }
    assert s[..|s|] == s;
  }

  method AssignWeights(a: array<Backend>, f: string -> int)
    modifies a
    ensures a[..] == Weigh(old(a[..]), f)
  {
    for i := 0 to a.Length
      invariant forall j :: 0 <= j < i ==> a[j] == old(a[j]).(weight := f(old(a[j]).serverId))
      invariant forall j :: i <= j < a.Length ==> a[j] == old(a[j])
    {
      a[i] := a[i].(weight := f(a[i].serverId));
    }
  }

  method PodNumberAlgorithm(policy: TrafficPolicy, a: array<Backend>)
    modifies a
    ensures a[..] == Weighted(policy, old(a[..]), None)
  {
    if policy.Eni? || policy.Cluster? {
      AssignWeights(a, (_: string) => DEFAULT_SERVER_WEIGHT);
      return;
    }
    var pods := CountPods(a[..]);
    AssignWeights(a, (id: string) => if id in pods then pods[id] else 0);
  }

  method PodPercentAlgorithm(policy: TrafficPolicy, a: array<Backend>, weight: nat)
    modifies a
    ensures a[..] == Weighted(policy, old(a[..]), Some(weight))
  {
    var n := a.Length;
    if n == 0 { return; }
    if weight == 0 {
      AssignWeights(a, (_: string) => 0);
      return;
    }
    if policy.Eni? || policy.Cluster? {
      var per := weight / n;
      if per < 1 { per := 1; }
      AssignWeights(a, (_: string) => per);
      return;
    }
    var pods := CountPods(a[..]);
    AssignWeights(a, (id: string) =>
      var w := weight * (if id in pods then pods[id] else 0) / n;
      if w < 1 then 1 else w);
  }

  method SetWeightBackends(policy: TrafficPolicy, a: array<Backend>, weight: Option<nat>)
    modifies a
    ensures a[..] == Weighted(policy, old(a[..]), weight)
  {
    if weight.None? {
      PodNumberAlgorithm(policy, a);
    } else {
      PodPercentAlgorithm(policy, a, weight.value);
    }
  }

  method RemoveDuplicatedECS(s: seq<Backend>) returns (kept: seq<Backend>)
    ensures kept == FirstOfEach(s)
    ensures DistinctIds(kept) && forall id :: HasId(kept, id) <==> HasId(s, id)
  {
    var seen: set<string> := {};
    kept := [];
    for i := 0 to |s|
      invariant kept == FirstOfEach(s[..i])
      invariant forall id :: id in seen <==> Count(s[..i], id) > 0
    {
      var b := s[i];
      assert s[..i + 1][..i] == s[..i];
      if b.serverId !in seen {
        seen := seen + {b.serverId};
        kept := kept + [b];
      }
    }
    assert s[..|s|] == s;
    FirstsAreDistinct(s);
  }

  /** Without a total outside local mode every backend has the default weight. */
  lemma DefaultElsewhere(policy: TrafficPolicy, s: seq<Backend>)
    requires !policy.Local?
    ensures forall b :: b in Weighted(policy, s, None) ==> b.weight == 100
  {
  }

  /** A kept share is the exact one rounded down, or one where that is less. */
  ghost predicate RoundedDown(share: int, weight: nat, pods: nat, all: nat) {
    share * all <= weight * pods < share * all + all || (share == 1 && weight * pods < all)
  }

  lemma ShareIsRounded(weight: nat, pods: nat, all: nat)
    requires weight > 0 && all > 0
    ensures RoundedDown(Share(weight, pods, all), weight, pods, all)
  {
    Division(weight * pods, all);
  }

  /** A kept backend is the first one of its server, but for the weight. */
  ghost predicate IsFirst(s: seq<Backend>, b: Backend) {
    exists i :: 0 <= i < |s| && s[i].(weight := b.weight) == b && forall j :: 0 <= j < i ==> s[j].serverId != b.serverId
  }

  lemma {:induction false} FirstsAreFirst(s: seq<Backend>, b: Backend)
    requires b in FirstOfEach(s)
    ensures exists i :: 0 <= i < |s| && s[i] == b && forall j :: 0 <= j < i ==> s[j].serverId != b.serverId
  {
    var front, x := s[..|s| - 1], s[|s| - 1];
    if b in FirstOfEach(front) {
      FirstsAreFirst(front, b);
      var i :| 0 <= i < |front| && front[i] == b && forall j :: 0 <= j < i ==> front[j].serverId != b.serverId;
      assert s[i] == b && forall j :: 0 <= j < i ==> s[j] == front[j];
    } else {
      CountIsPresence(front, b.serverId);
      assert forall j :: 0 <= j < |front| ==> s[j] == front[j];
      assert s[|front|] == b;
    }
  }

  lemma KeptIsFirst(s: seq<Backend>, w: seq<Backend>, b: Backend)
    requires b in FirstOfEach(w) && |w| == |s|
    requires forall i :: 0 <= i < |s| ==> w[i] == s[i].(weight := w[i].weight)
    ensures IsFirst(s, b)
  {
    FirstsAreFirst(w, b);
    var i :| 0 <= i < |w| && w[i] == b && forall j :: 0 <= j < i ==> w[j].serverId != b.serverId;
    assert s[i].(weight := b.weight) == b;
    assert forall j :: 0 <= j < |s| ==> w[j].serverId == s[j].serverId;
  }

  lemma KeptIsRounded(s: seq<Backend>, weight: nat, b: Backend)
    requires weight > 0 && s != [] && b in FirstOfEach(Weighted(Local, s, Some(weight)))
    ensures RoundedDown(b.weight, weight, Count(s, b.serverId), |s|)
  {
    var w := Weighted(Local, s, Some(weight));
    FirstsAreFirst(w, b);
    var i :| 0 <= i < |w| && w[i] == b;
    assert b.weight == Share(weight, Count(s, b.serverId), |s|);
    ShareIsRounded(weight, Count(s, b.serverId), |s|);
  }

  /** The last two steps of building backends in local mode. */
  method WeighAndKeepFirsts(a: array<Backend>, weight: Option<nat>) returns (kept: seq<Backend>)
    modifies a
    ensures DistinctIds(kept) && forall id :: HasId(kept, id) <==> HasId(old(a[..]), id)
    ensures forall b :: b in kept ==> IsFirst(old(a[..]), b)
    ensures weight.Some? && weight.value > 0 ==> forall b :: b in kept ==>
              RoundedDown(b.weight, weight.value, Count(old(a[..]), b.serverId), a.Length)
    ensures weight.None? ==>
              && Total(kept) == a.Length
              && forall b :: b in kept ==> b.weight == Count(old(a[..]), b.serverId)
    ensures weight == Some(0) ==> forall b :: b in kept ==> b.weight == 0
    ensures weight.Some? && weight.value > 0 ==> forall b :: b in kept ==> 1 <= b.weight <= weight.value
    ensures weight.Some? && weight.value > 0 && a.Length > 0 ==>
              weight.value - |kept| < Total(kept) < weight.value + |kept|
  {
    ghost var s := a[..];
    SetWeightBackends(Local, a, weight);
    kept := RemoveDuplicatedECS(a[..]);
    FirstsAreDistinct(a[..]);
    forall id
      ensures HasId(s, id) <==> HasId(a[..], id)
    {
      SameIds(s, a[..], id);
    }
    forall b | b in kept
      ensures IsFirst(s, b)
    {
      KeptIsFirst(s, a[..], b);
    }
    if s != [] && weight.Some? && weight.value > 0 {
      forall b | b in kept { KeptIsRounded(s, weight.value, b); }
    }
    DefaultLocalConserves(s);
    ZeroSilences(Local, s);
    if s != [] && weight.Some? && weight.value > 0 { PercentLocalIsClose(s, weight.value); }
  }

  lemma SameIds(s: seq<Backend>, r: seq<Backend>, id: string)
    requires |s| == |r| && forall i :: 0 <= i < |s| ==> s[i].serverId == r[i].serverId
    ensures HasId(s, id) <==> HasId(r, id)
  {
    if HasId(s, id) {
      var i :| 0 <= i < |s| && s[i].serverId == id;
      assert r[i].serverId == id;
    }
    if HasId(r, id) {
      var i :| 0 <= i < |r| && r[i].serverId == id;
      assert s[i].serverId == id;
    }
  }
}
