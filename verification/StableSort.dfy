/** The Go library's stable sort, driven by a comparator that only asks whether its first
    argument belongs in front. Such a comparator is no strict order, so the library
    promises nothing about it; what the algorithm does with it is a partition. */
module StableSort {

  const BLOCK_SIZE := 20

  /** On positions [a, b), what belongs in front is exactly what lies before k. */
  ghost predicate SplitAt<T>(s: seq<T>, a: nat, k: nat, b: nat, front: T -> bool) {
    a <= k <= b <= |s| && forall i :: a <= i < b ==> (front(s[i]) <==> i < k)
  }

  /** `r` rearranges positions [a, b) of `s` and keeps the rest. */
  ghost predicate Rearranged<T>(s: seq<T>, r: seq<T>, a: nat, b: nat)
    requires a <= b <= |s|
  {
    && |r| == |s| && r[..a] == s[..a] && r[b..] == s[b..]
    && multiset(r[a..b]) == multiset(s[a..b])
  }

  function Swap<T>(s: seq<T>, i: nat, j: nat): seq<T>
    requires i < |s| && j < |s|
  {
    s[i := s[j]][j := s[i]]
  }

  lemma RearrangedTransitive<T>(s: seq<T>, r: seq<T>, t: seq<T>, a: nat, b: nat)
    requires a <= b <= |s| && Rearranged(s, r, a, b) && Rearranged(r, t, a, b)
    ensures Rearranged(s, t, a, b)
  {}

  /** Rearranging a part rearranges the whole. */
  lemma RearrangedWiden<T>(s: seq<T>, r: seq<T>, a: nat, b: nat, a': nat, b': nat)
    requires a' <= a <= b <= b' <= |s| && Rearranged(s, r, a, b)
    ensures Rearranged(s, r, a', b')
  {
    assert s[a'..b'] == s[a'..a] + s[a..b] + s[b..b'];
    assert r[a'..b'] == r[a'..a] + r[a..b] + r[b..b'];
    assert r[a'..a] == r[..a][a'..] == s[..a][a'..] == s[a'..a];
    assert r[b..b'] == r[b..][..b' - b] == s[b..][..b' - b] == s[b..b'];
    assert r[..a'] == r[..a][..a'] == s[..a][..a'] == s[..a'];
    assert r[b'..] == r[b..][b' - b..] == s[b..][b' - b..] == s[b'..];
  }

  lemma RearrangedOutside<T>(s: seq<T>, r: seq<T>, a: nat, b: nat)
    requires a <= b <= |s| && Rearranged(s, r, a, b)
    ensures forall i :: 0 <= i < a || b <= i < |s| ==> r[i] == s[i]
  {
    forall i | 0 <= i < a || b <= i < |s|
      ensures r[i] == s[i]
    {
      if i < a { assert r[..a][i] == s[..a][i]; } else { assert r[b..][i - b] == s[b..][i - b]; }
    }
  }

  /** Exchanging the stretches [a, m) and [m, b). */
  function Rotate<T>(s: seq<T>, a: nat, m: nat, b: nat): seq<T>
    requires a <= m <= b <= |s|
  {
    s[..a] + s[m..b] + s[a..m] + s[b..]
  }

  lemma RotateRearranges<T>(s: seq<T>, a: nat, m: nat, b: nat)
    requires a <= m <= b <= |s|
    ensures Rearranged(s, Rotate(s, a, m, b), a, b)
  {
    var r := Rotate(s, a, m, b);
    assert r[a..b] == s[m..b] + s[a..m];
    assert s[a..b] == s[a..m] + s[m..b];
    assert r[..a] == s[..a] && r[b..] == s[b..];
  }

  function Origin(a: nat, m: nat, b: nat, i: nat): nat
    requires a <= m <= b
  {
    if i < a || b <= i then i else if i < a + (b - m) then m + (i - a) else i - (b - m)
  }

  /** Where each element of a rotated stretch comes from. */
  lemma RotateElements<T>(s: seq<T>, a: nat, m: nat, b: nat)
    requires a <= m <= b <= |s|
    ensures |Rotate(s, a, m, b)| == |s|
    ensures forall i :: 0 <= i < |s| ==> Rotate(s, a, m, b)[i] == s[Origin(a, m, b, i)]
  {}

  lemma RotateGrowsRight<T>(s: seq<T>, a: nat, k: nat)
    requires a <= k && k + 1 < |s|
    ensures Swap(Rotate(s, a, a + 1, k + 1), k, k + 1) == Rotate(s, a, a + 1, k + 2)
  {
    RotateElements(s, a, a + 1, k + 1);
    RotateElements(s, a, a + 1, k + 2);
  }

  lemma RotateGrowsLeft<T>(s: seq<T>, m: nat, k: nat)
    requires 0 < k <= m < |s|
    ensures Swap(Rotate(s, k, m, m + 1), k, k - 1) == Rotate(s, k - 1, m, m + 1)
  {
    RotateElements(s, k, m, m + 1);
    RotateElements(s, k - 1, m, m + 1);
  }

  /** Moving position a, by swaps of neighbours, to just before position i. */
  method MoveRight<T>(s: seq<T>, a: nat, i: nat) returns (r: seq<T>)
    requires a < i <= |s|
    ensures r == Rotate(s, a, a + 1, i)
  {
    r := s;
    assert r == Rotate(s, a, a + 1, a + 1);
    for k := a to i - 1
      invariant r == Rotate(s, a, a + 1, k + 1)
    {
      RotateGrowsRight(s, a, k);
      r := Swap(r, k, k + 1);
    }
  }

  /** Moving position m, by swaps of neighbours, to position i. */
  method MoveLeft<T>(s: seq<T>, m: nat, i: nat) returns (r: seq<T>)
    requires i <= m < |s|
    ensures r == Rotate(s, i, m, m + 1)
  {
    r := s;
    assert r == Rotate(s, m, m, m + 1);
    var k: nat := m;
    while k > i
      invariant i <= k <= m && r == Rotate(s, k, m, m + 1)
    {
      RotateGrowsLeft(s, m, k);
      r := Swap(r, k, k - 1);
      k := k - 1;
    }
  }

  /** Insertion of position i into [a, i): an element that belongs in front travels to the
      very start. */
  method Insert<T>(s: seq<T>, a: nat, i: nat, b: nat, front: T -> bool, ghost k: nat) returns (r: seq<T>)
    requires i < b <= |s| && SplitAt(s, a, k, i, front)
    ensures Rearranged(s, r, a, b)
    ensures SplitAt(r, a, if front(s[i]) then k + 1 else k, i + 1, front)
  {
    r := s;
    assert r == Rotate(s, i, i, i + 1);
    var j: nat := i;
    while j > a && front(r[j])
      invariant a <= j <= i && r == Rotate(s, j, i, i + 1) && r[j] == s[i]
      invariant j < i ==> front(s[i])
    {
      RotateGrowsLeft(s, i, j);
      r := Swap(r, j, j - 1);
      j := j - 1;
    }
    InsertSplits(s, a, i, front, k);
    RotateRearranges(s, j, i, i + 1);
    RearrangedWiden(s, r, j, i + 1, a, b);
  }

  lemma InsertSplits<T>(s: seq<T>, a: nat, i: nat, front: T -> bool, k: nat)
    requires i < |s| && SplitAt(s, a, k, i, front)
    ensures front(s[i]) ==> SplitAt(Rotate(s, a, i, i + 1), a, k + 1, i + 1, front)
    ensures !front(s[i]) ==> SplitAt(Rotate(s, i, i, i + 1), a, k, i + 1, front)
    ensures !front(s[i]) && a == i ==> SplitAt(Rotate(s, a, i, i + 1), a, k, i + 1, front)
  {
    RotateElements(s, a, i, i + 1);
    RotateElements(s, i, i, i + 1);
  }

  method InsertionSort<T>(s: seq<T>, a: nat, b: nat, front: T -> bool) returns (r: seq<T>, ghost k: nat)
    requires a <= b <= |s|
    ensures Rearranged(s, r, a, b)
    ensures SplitAt(r, a, k, b, front)
  {
    r, k := s, a;
    var i := a;
    while i < b
      invariant a <= i <= b && Rearranged(s, r, a, b) && SplitAt(r, a, k, i, front)
    {
      ghost var before := r;
      r := Insert(r, a, i, b, front, k);
      RearrangedTransitive(s, before, r, a, b);
      k := if front(before[i]) then k + 1 else k;
      i := i + 1;
    }
  }

  function Min(x: int, y: int): int { if x < y then x else y }
  function Max(x: int, y: int): int { if x < y then y else x }

  /** The binary search that places the cut: `start` elements stay on the left, and the
      right run is cut at `end`, next to its own split point wherever that is possible. */
  method FindCut<T>(s: seq<T>, a: nat, m: nat, b: nat, front: T -> bool, ghost kb: nat) returns (start: nat)
    requires a < m < b && SplitAt(s, m, kb, b, front)
    ensures var mid := (a + b) / 2; var end := mid + m - start;
            && a <= start <= Min(m, mid) && Max(m, mid) <= end <= b
            && (start < Min(m, mid) ==> end <= kb)
            && (a < start && end < b ==> kb <= end)
  {
    var mid := (a + b) / 2;
    var n := mid + m;
    var r: nat;
    if m > mid { start, r := n - b, mid; } else { start, r := a, m; }
    var p := n - 1;
    ghost var lo, hi := start, r;
    while start < r
      invariant lo <= start <= r <= hi
      invariant r < hi ==> front(s[p - r])
      invariant lo < start ==> !front(s[p - (start - 1)])
    {
      var c := (start + r) / 2;
      if !front(s[p - c]) { start := c + 1; } else { r := c; }
    }
  }

  lemma SplitOfRotated<T>(s: seq<T>, a: nat, start: nat, m: nat, end: nat, b: nat, front: T -> bool, ka: nat, kb: nat)
    requires a <= start <= m <= end <= b <= |s|
    requires SplitAt(s, a, ka, m, front) && SplitAt(s, m, kb, b, front)
    ensures var t, mid := Rotate(s, start, m, end), start + (end - m);
            && SplitAt(t, a, Min(ka, start), start, front)
            && SplitAt(t, start, start + (Min(kb, end) - m), mid, front)
            && SplitAt(t, mid, mid + Max(ka - start, 0), end, front)
            && SplitAt(t, end, Max(kb, end), b, front)
  {
    RotateElements(s, start, m, end);
  }

  /** Two partitioned halves make a partitioned whole when the left one is all in front or
      the right one not at all. */
  lemma SplitsJoin<T>(s: seq<T>, a: nat, kl: nat, mid: nat, kr: nat, b: nat, front: T -> bool)
    requires SplitAt(s, a, kl, mid, front) && SplitAt(s, mid, kr, b, front)
    requires kl == mid || kr == mid
    ensures SplitAt(s, a, kl + (kr - mid), b, front)
  {}

  lemma SplitKept<T>(s: seq<T>, r: seq<T>, a: nat, b: nat, x: nat, k: nat, y: nat, front: T -> bool)
    requires a <= b <= |s| && Rearranged(s, r, a, b) && SplitAt(s, x, k, y, front) && (y <= a || b <= x)
    ensures SplitAt(r, x, k, y, front)
  {
    RearrangedOutside(s, r, a, b);
  }

  lemma OneLeftSplits<T>(s: seq<T>, a: nat, b: nat, front: T -> bool, ka: nat, kb: nat)
    requires a + 1 < b && SplitAt(s, a, ka, a + 1, front) && SplitAt(s, a + 1, kb, b, front)
    ensures SplitAt(Rotate(s, a, a + 1, kb), a, ka + (kb - (a + 1)), b, front)
  {
    RotateElements(s, a, a + 1, kb);
  }

  lemma OneRightSplits<T>(s: seq<T>, a: nat, m: nat, front: T -> bool, ka: nat, kb: nat)
    requires a < m && SplitAt(s, a, ka, m, front) && SplitAt(s, m, kb, m + 1, front)
    ensures SplitAt(Rotate(s, if front(s[m]) then a else m, m, m + 1), a, ka + (kb - m), m + 1, front)
  {
    RotateElements(s, if front(s[m]) then a else m, m, m + 1);
  }

  /** A left run of one element is inserted into the right run. */
  method MergeOneLeft<T>(s: seq<T>, a: nat, b: nat, front: T -> bool, ghost ka: nat, ghost kb: nat) returns (r: seq<T>)
    requires a + 1 < b && SplitAt(s, a, ka, a + 1, front) && SplitAt(s, a + 1, kb, b, front)
    ensures Rearranged(s, r, a, b)
    ensures SplitAt(r, a, ka + (kb - (a + 1)), b, front)
  {
    var i: nat, j: nat := a + 1, b;
    while i < j
      invariant a + 1 <= i <= kb <= j <= b
    {
      var h := (i + j) / 2;
      if front(s[h]) { i := h + 1; } else { j := h; }
    }
    r := MoveRight(s, a, i);
    OneLeftSplits(s, a, b, front, ka, kb);
    RotateRearranges(s, a, a + 1, i);
    RearrangedWiden(s, r, a, i, a, b);
  }

  /** A right run of one element is inserted into the left run. */
  method MergeOneRight<T>(s: seq<T>, a: nat, m: nat, front: T -> bool, ghost ka: nat, ghost kb: nat) returns (r: seq<T>)
    requires a < m && SplitAt(s, a, ka, m, front) && SplitAt(s, m, kb, m + 1, front)
    ensures Rearranged(s, r, a, m + 1)
    ensures SplitAt(r, a, ka + (kb - m), m + 1, front)
  {
    var i: nat, j: nat := a, m;
    while i < j
      invariant a <= i <= j <= m
      invariant if front(s[m]) then i == a else j == m
    {
      var h := (i + j) / 2;
      if !front(s[m]) { i := h + 1; } else { j := h; }
    }
    r := MoveLeft(s, m, i);
    OneRightSplits(s, a, m, front, ka, kb);
    RotateRearranges(s, i, m, m + 1);
    RearrangedWiden(s, r, i, m + 1, a, m + 1);
  }

  /** The cut leaves the left half all in front or the right half without front elements. */
  lemma CutBalances(a: nat, start: nat, m: nat, end: nat, b: nat, ka: nat, kb: nat)
    requires a < m < b && a <= ka <= m <= kb <= b
    requires var mid := (a + b) / 2;
             && end == mid + m - start && a <= start <= Min(m, mid) && Max(m, mid) <= end <= b
             && (start < Min(m, mid) ==> end <= kb) && (a < start && end < b ==> kb <= end)
    ensures var mid := (a + b) / 2;
            var kl, kr := Min(ka, start) + (Min(kb, end) - m), mid + Max(ka - start, 0) + (Max(kb, end) - end);
            && a <= kl <= mid <= kr <= b && (kl == mid || kr == mid) && kl + (kr - mid) == ka + (kb - m)
  {}

  lemma CutSplits<T>(s: seq<T>, a: nat, start: nat, m: nat, end: nat, b: nat, front: T -> bool, ka: nat, kb: nat)
    returns (lk: nat, lm: nat, rk: nat, rm: nat)
    requires a < m < b && SplitAt(s, a, ka, m, front) && SplitAt(s, m, kb, b, front)
    requires var mid := (a + b) / 2;
             && end == mid + m - start && a <= start <= Min(m, mid) && Max(m, mid) <= end <= b
             && (start < Min(m, mid) ==> end <= kb) && (a < start && end < b ==> kb <= end)
    ensures var t, mid := Rotate(s, start, m, end), (a + b) / 2;
            && SplitAt(t, a, lk, start, front) && SplitAt(t, start, lm, mid, front)
            && SplitAt(t, mid, rk, end, front) && SplitAt(t, end, rm, b, front)
            && (lk + (lm - start) == mid || rk + (rm - end) == mid)
            && lk + (lm - start) + (rk + (rm - end) - mid) == ka + (kb - m)
  {
    CutBalances(a, start, m, end, b, ka, kb);
    SplitOfRotated(s, a, start, m, end, b, front, ka, kb);
    lk, lm := Min(ka, start), start + (Min(kb, end) - m);
    rk, rm := (a + b) / 2 + Max(ka - start, 0), Max(kb, end);
  }

  /** Merging two adjacent runs in place. */
  method SymMerge<T>(s: seq<T>, a: nat, m: nat, b: nat, front: T -> bool, ghost ka: nat, ghost kb: nat)
    returns (r: seq<T>)
    requires a < m < b && SplitAt(s, a, ka, m, front) && SplitAt(s, m, kb, b, front)
    ensures Rearranged(s, r, a, b)
    ensures SplitAt(r, a, ka + (kb - m), b, front)
    decreases b - a, 1
  {
    if m - a == 1 {
      r := MergeOneLeft(s, a, b, front, ka, kb);
      return;
    }
    if b - m == 1 {
      r := MergeOneRight(s, a, m, front, ka, kb);
      return;
    }
    var mid := (a + b) / 2;
    var start := FindCut(s, a, m, b, front, kb);
    var end := mid + m - start;
    var t := Rotate(s, start, m, end);
    ghost var lk, lm, rk, rm := CutSplits(s, a, start, m, end, b, front, ka, kb);
    r := MergeHalves(t, a, start, mid, end, b, front, lk, lm, rk, rm);
    RearrangedAfterRotate(s, r, a, start, m, end, b);
  }

  lemma RearrangedAfterRotate<T>(s: seq<T>, r: seq<T>, a: nat, start: nat, m: nat, end: nat, b: nat)
    requires a <= start <= m <= end <= b <= |s| && Rearranged(Rotate(s, start, m, end), r, a, b)
    ensures Rearranged(s, r, a, b)
  {
    var t := Rotate(s, start, m, end);
    RotateRearranges(s, start, m, end);
    RearrangedWiden(s, t, start, end, a, b);
    RearrangedTransitive(s, t, r, a, b);
  }

  /** Merging within each half of a range. */
  method MergeHalves<T>(t: seq<T>, a: nat, start: nat, mid: nat, end: nat, b: nat, front: T -> bool,
                        ghost lk: nat, ghost lm: nat, ghost rk: nat, ghost rm: nat) returns (r: seq<T>)
    requires a < mid < b
    requires SplitAt(t, a, lk, start, front) && SplitAt(t, start, lm, mid, front)
    requires SplitAt(t, mid, rk, end, front) && SplitAt(t, end, rm, b, front)
    requires lk + (lm - start) == mid || rk + (rm - end) == mid
    ensures Rearranged(t, r, a, b)
    ensures SplitAt(r, a, lk + (lm - start) + (rk + (rm - end) - mid), b, front)
    decreases b - a, 0
  {
    var u := SymMergeRuns(t, a, start, mid, front, lk, lm);
    SplitKept(t, u, a, mid, mid, rk, end, front);
    SplitKept(t, u, a, mid, end, rm, b, front);
    r := SymMergeRuns(u, mid, end, b, front, rk, rm);
    SplitKept(u, r, mid, b, a, lk + (lm - start), mid, front);
    SplitsJoin(r, a, lk + (lm - start), mid, rk + (rm - end), b, front);
    HalvesRearrange(t, u, r, a, mid, b);
  }

  lemma HalvesRearrange<T>(t: seq<T>, u: seq<T>, r: seq<T>, a: nat, mid: nat, b: nat)
    requires a <= mid <= b <= |t|
    requires Rearranged(t, u, a, mid) && Rearranged(u, r, mid, b)
    ensures Rearranged(t, r, a, b)
  {
    RearrangedWiden(t, u, a, mid, a, b);
    RearrangedWiden(u, r, mid, b, a, b);
    RearrangedTransitive(t, u, r, a, b);
  }

  /** ... unless one of the runs is empty. */
  method SymMergeRuns<T>(s: seq<T>, a: nat, m: nat, b: nat, front: T -> bool, ghost ka: nat, ghost kb: nat)
    returns (r: seq<T>)
    requires a <= m <= b && SplitAt(s, a, ka, m, front) && SplitAt(s, m, kb, b, front)
    ensures Rearranged(s, r, a, b)
    ensures SplitAt(r, a, ka + (kb - m), b, front)
    decreases b - a, 2
  {
    if a < m && m < b {
      r := SymMerge(s, a, m, b, front, ka, kb);
    } else {
      r := s;
    }
  }

  ghost predicate RunSplit<T>(s: seq<T>, a: nat, b: nat, front: T -> bool) {
    exists k :: SplitAt(s, a, k, b, front)
  }

  function BlockEnd(from: nat, size: nat, n: nat): nat { if from + size < n then from + size else n }

  /** From position `from` on, the sequence consists of partitioned blocks of one size, the
      last one possibly shorter. */
  ghost predicate BlocksSplit<T>(s: seq<T>, size: nat, from: nat, front: T -> bool)
    requires size > 0
    decreases |s| - from
  {
    from < |s| ==>
      RunSplit(s, from, BlockEnd(from, size, |s|), front) && BlocksSplit(s, size, BlockEnd(from, size, |s|), front)
  }

  lemma RunKept<T>(s: seq<T>, r: seq<T>, a: nat, b: nat, front: T -> bool)
    requires a <= b <= |s| == |r| && (forall i :: a <= i < b ==> r[i] == s[i]) && RunSplit(s, a, b, front)
    ensures RunSplit(r, a, b, front)
  {
    var k :| SplitAt(s, a, k, b, front);
    assert SplitAt(r, a, k, b, front);
  }

  lemma {:induction false} BlocksKept<T>(s: seq<T>, r: seq<T>, size: nat, from: nat, front: T -> bool)
    requires size > 0 && |s| == |r| && (forall i :: from <= i < |s| ==> r[i] == s[i])
             && BlocksSplit(s, size, from, front)
    ensures BlocksSplit(r, size, from, front)
    decreases |s| - from
  {
    if from < |s| {
      RunKept(s, r, from, BlockEnd(from, size, |s|), front);
      BlocksKept(s, r, size, BlockEnd(from, size, |s|), front);
    }
  }

  /** Insertion sort of each block of twenty. */
  method SortBlocks<T>(s: seq<T>, from: nat, front: T -> bool) returns (r: seq<T>)
    requires from <= |s|
    ensures Rearranged(s, r, from, |s|)
    ensures BlocksSplit(r, BLOCK_SIZE, from, front)
    decreases |s| - from
  {
    if from == |s| { return s; }
    var end := BlockEnd(from, BLOCK_SIZE, |s|);
    var t;
    ghost var k;
    t, k := InsertionSort(s, from, end, front);
    r := SortBlocks(t, end, front);
    RearrangedOutside(t, r, end, |s|);
    assert RunSplit(t, from, end, front);
    RunKept(t, r, from, end, front);
    HalvesRearrange(s, t, r, from, end, |s|);
  }

  /** Merging neighbouring blocks, from `from` on. */
  method MergePass<T>(s: seq<T>, size: nat, from: nat, front: T -> bool) returns (r: seq<T>)
    requires size > 0 && from <= |s| && BlocksSplit(s, size, from, front)
    ensures Rearranged(s, r, from, |s|)
    ensures BlocksSplit(r, 2 * size, from, front)
    decreases |s| - from
  {
    if from + size >= |s| { return s; }
    var mid, end := from + size, BlockEnd(from, 2 * size, |s|);
    ghost var ka :| SplitAt(s, from, ka, mid, front);
    ghost var kb :| SplitAt(s, mid, kb, end, front);
    var t := SymMerge(s, from, mid, end, front, ka, kb);
    RearrangedOutside(s, t, from, end);
    BlocksKept(s, t, size, end, front);
    r := MergePass(t, size, end, front);
    RearrangedOutside(t, r, end, |s|);
    assert RunSplit(t, from, end, front);
    RunKept(t, r, from, end, front);
    HalvesRearrange(s, t, r, from, end, |s|);
  }

  /** Sorting a list stably by "belongs in front": the result is a rearrangement in which
      everything that belongs in front comes first. */
  method SliceStable<T>(s: seq<T>, front: T -> bool) returns (r: seq<T>)
    ensures multiset(r) == multiset(s)
    ensures forall i, j :: 0 <= i < j < |r| && front(r[j]) ==> front(r[i])
  {
    r := SortBlocks(s, 0, front);
    var size := BLOCK_SIZE;
    while size < |s|
      invariant size > 0 && Rearranged(s, r, 0, |s|) && BlocksSplit(r, size, 0, front)
      decreases |s| - size
    {
      ghost var before := r;
      r := MergePass(r, size, 0, front);
      RearrangedTransitive(s, before, r, 0, |s|);
      size := size * 2;
    }
    assert s[0..|s|] == s && r[0..|s|] == r;
    if |r| > 0 {
      assert RunSplit(r, 0, |r|, front);
      ghost var k :| SplitAt(r, 0, k, |r|, front);
    }
  }
}
