/** Small vocabulary shared by the models: optional values, filtering, distinctness. */
module Common {

  datatype Option<+T> = None | Some(value: T)

  /** How many backends or servers a batched call takes unless configured otherwise. */
  const MAX_BACKEND_NUM := 39

  /** The elements of `s` satisfying `p`, in order. Defined from the back, the way a
      loop that appends builds its list. */
  function Filter<T(!new)>(p: T -> bool, s: seq<T>): (r: seq<T>)
    ensures forall x :: x in r <==> x in s && p(x)
  {
    if s == [] then []
    else
      var x := s[|s| - 1];
      assert s == s[..|s| - 1] + [x];
      Filter(p, s[..|s| - 1]) + (if p(x) then [x] else [])
  }

  /** One more iteration of a filtering loop. */
  lemma FilterStep<T(!new)>(p: T -> bool, s: seq<T>, i: nat)
    requires i < |s|
    ensures Filter(p, s[..i + 1]) == Filter(p, s[..i]) + (if p(s[i]) then [s[i]] else [])
  {
    assert s[..i + 1][..i] == s[..i];
  }

  lemma FilterEmpty<T(!new)>(p: T -> bool, s: seq<T>)
    ensures Filter(p, s) == [] <==> forall x :: x in s ==> !p(x)
  {
    if Filter(p, s) != [] {
      assert Filter(p, s)[0] in Filter(p, s);
    }
  }

  // ---- batches -----------------------------------------------------------------------

  /** How many elements one call takes. */
  function ChunkSize(batchSize: int): (size: nat)
    ensures size == if batchSize > 0 then batchSize else 39
  {
    if batchSize <= 0 then MAX_BACKEND_NUM else batchSize
  }

  /** The end of the chunk that starts at `begin`. */
  function ChunkEnd(begin: nat, total: nat, batchSize: int): (end: nat)
    requires begin < total
    ensures begin < end <= total
  {
    var size := ChunkSize(batchSize);
    if begin + size > total then total else begin + size
  }

  /** How many calls take a list from `begin` to its end. */
  function Chunks(begin: nat, total: nat, batchSize: int): nat
    decreases total - begin
  {
    if begin >= total then 0 else 1 + Chunks(ChunkEnd(begin, total, batchSize), total, batchSize)
  }

  /** As few as the size of a chunk allows. */
  lemma {:induction false} ChunksAreFew(begin: nat, total: nat, batchSize: int)
    requires begin <= total
    ensures var size := if batchSize > 0 then batchSize else 39;
            total - begin <= Chunks(begin, total, batchSize) * size < total - begin + size
    decreases total - begin
  {
    if begin < total {
      var size, end := ChunkSize(batchSize), ChunkEnd(begin, total, batchSize);
      ChunksAreFew(end, total, batchSize);
      assert (1 + Chunks(end, total, batchSize)) * size == size + Chunks(end, total, batchSize) * size;
      if end == total { assert Chunks(end, total, batchSize) == 0; }
    }
  }
}
