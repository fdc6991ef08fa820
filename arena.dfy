/** Arithmetic of the two-phase placement protocol: a size is planned as a sum
    of region sizes, and the regions are then carved out of one caller-supplied
    buffer back to back, in the same order, by an advancing byte cursor. */
module Arena {

  /** The byte boundary the adapter asserts before handing memory to the kernel. */
  const Alignment: nat := 8

  predicate Aligned(addr: nat)
  {
    addr % Alignment == 0
  }

  /** Aligned addresses stay aligned when an aligned size is added. */
  lemma AlignedAdd(a: nat, b: nat)
    requires Aligned(a) && Aligned(b)
    ensures Aligned(a + b)
  {
  }

  /** Total of a list of region sizes, accumulated front to back as the
      `size += ...` sequences and the `tmp_size` loops do. */
  function Sum(sizes: seq<nat>): nat
  {
    if sizes == [] then 0 else Sum(sizes[..|sizes| - 1]) + sizes[|sizes| - 1]
  }

  /** Start address of each region when the regions are placed back to back
      from `start`: region k begins after the sizes of regions 0..k-1. */
  function Offsets(start: nat, sizes: seq<nat>): (r: seq<nat>)
    ensures |r| == |sizes|
  {
    seq(|sizes|, k requires 0 <= k < |sizes| => start + Sum(sizes[..k]))
  }

  /** A three-region plan is the plain sum of its parts: no padding is added. */
  lemma SumOfThree(a: nat, b: nat, c: nat)
    ensures Sum([a, b, c]) == a + b + c
  {
    assert [a, b, c][..2] == [a, b];
    assert [a, b][..1] == [a];
    assert [a][..0] == [];
    assert Sum([a]) == a;
    assert Sum([a, b]) == a + b;
  }

  /** Taking one more region extends the prefix sum by that region's size. */
  lemma SumPrefixStep(sizes: seq<nat>, k: nat)
    requires k < |sizes|
    ensures Sum(sizes[..k + 1]) == Sum(sizes[..k]) + sizes[k]
  {
    assert sizes[..k + 1][..k] == sizes[..k];
  }

  /** Region j ends no later than any later region k begins. */
  lemma {:induction false} SumPrefixGrows(sizes: seq<nat>, j: nat, k: nat)
    requires j < k <= |sizes|
    ensures Sum(sizes[..j]) + sizes[j] <= Sum(sizes[..k])
    decreases k - j
  {
    SumPrefixStep(sizes, j);
    if j + 1 < k {
      SumPrefixGrows(sizes, j + 1, k);
      SumPrefixStep(sizes, j + 1);
    }
  }

  /** Regions placed back to back never overlap. */
  lemma RegionsDisjoint(start: nat, sizes: seq<nat>, j: nat, k: nat)
    requires j < k < |sizes|
    ensures Offsets(start, sizes)[j] + sizes[j] <= Offsets(start, sizes)[k]
  {
    SumPrefixGrows(sizes, j, k);
  }

  /** Every region lies inside the planned buffer [start, start + Sum(sizes)). */
  lemma RegionWithinBuffer(start: nat, sizes: seq<nat>, k: nat)
    requires k < |sizes|
    ensures start <= Offsets(start, sizes)[k]
    ensures Offsets(start, sizes)[k] + sizes[k] <= start + Sum(sizes)
  {
    SumPrefixGrows(sizes, k, |sizes|);
    assert sizes[..|sizes|] == sizes;
  }
}
