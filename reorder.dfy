/** The beam reorder shared by both cache layouts. A buffer of `n` beam slots is
    `n` consecutive blocks of `B` elements; reordering by `beamIndices` builds a
    buffer whose block `j` is block `beamIndices[j]` of the source. `Gather` is
    the reference definition; `Copy` is the element-range copy the reorder loops
    are made of. */
module Reorder {

  /** Every index names one of the `n` source beam slots. */
  predicate InRange(beamIndices: seq<int>, n: nat)
  {
    forall j :: 0 <= j < |beamIndices| ==> 0 <= beamIndices[j] < n
  }

  /** What the reorder demands of its caller: no more destinations than beam
      slots, and every source index in range. Repeats and omissions are allowed. */
  predicate ValidBeamIndices(beamIndices: seq<int>, n: nat)
  {
    |beamIndices| <= n && InRange(beamIndices, n)
  }

  /** Offset of block `j` when every block holds `B` elements, defined by
      repeated addition so that the proofs below stay linear. */
  function BlockStart(j: nat, B: nat): (r: nat)
  {
    if j == 0 then 0 else BlockStart(j - 1, B) + B
  }

  /** The offset is the product the cache computes. */
  lemma {:induction false} BlockStartProduct(j: nat, B: nat)
    ensures BlockStart(j, B) == j * B
  {
    if j > 0 {
      BlockStartProduct(j - 1, B);
      assert (j - 1) * B + B == j * B;
    }
  }

  /** Later blocks start no earlier. */
  lemma {:induction false} BlockStartMono(i: nat, j: nat, B: nat)
    requires i <= j
    ensures BlockStart(i, B) <= BlockStart(j, B)
  {
    if i < j {
      BlockStartMono(i, j - 1, B);
    }
  }

  /** Consecutive blocks are adjacent. */
  lemma {:induction false} BlockStartSucc(j: nat, B: nat)
    ensures BlockStart(j + 1, B) == BlockStart(j, B) + B
  {
  }

  /** Block `b` of `n` blocks ends inside the buffer. */
  lemma {:induction false} BlockFits(b: int, n: nat, B: nat)
    requires 0 <= b < n
    ensures BlockStart(b, B) + B <= BlockStart(n, B)
  {
    BlockStartMono(b + 1, n, B);
    assert BlockStart(b + 1, B) == BlockStart(b, B) + B;
  }

  /** Block `b` of a buffer of `n` blocks of size `B`. */
  function Block<T>(src: seq<T>, n: nat, B: nat, b: int): (r: seq<T>)
    requires |src| == BlockStart(n, B) && 0 <= b < n
    ensures |r| == B
  {
    BlockFits(b, n, B);
    src[BlockStart(b, B) .. BlockStart(b, B) + B]
  }

  /** Reference definition of the reorder: the blocks of `src` named by
      `beamIndices`, in that order. */
  function Gather<T>(src: seq<T>, n: nat, B: nat, beamIndices: seq<int>): (r: seq<T>)
    requires |src| == BlockStart(n, B) && InRange(beamIndices, n)
    ensures |r| == BlockStart(|beamIndices|, B)
    decreases |beamIndices|
  {
    if beamIndices == [] then []
    else
      var m := |beamIndices| - 1;
      Gather(src, n, B, beamIndices[..m]) + Block(src, n, B, beamIndices[m])
  }

  /** Destination block `j` of the reorder is source block `beamIndices[j]`. */
  lemma {:induction false} GatherBlock<T>(src: seq<T>, n: nat, B: nat, beamIndices: seq<int>, j: int)
    requires |src| == BlockStart(n, B) && InRange(beamIndices, n)
    requires 0 <= j < |beamIndices|
    ensures BlockStart(j, B) + B <= BlockStart(|beamIndices|, B)
    ensures Gather(src, n, B, beamIndices)[BlockStart(j, B) .. BlockStart(j, B) + B]
         == Block(src, n, B, beamIndices[j])
  {
    BlockFits(j, |beamIndices|, B);
    var m := |beamIndices| - 1;
    var front := beamIndices[..m];
    assert Gather(src, n, B, beamIndices) == Gather(src, n, B, front) + Block(src, n, B, beamIndices[m]);
    if j < m {
      GatherBlock(src, n, B, front, j);
      assert front[j] == beamIndices[j];
    }
  }

  /** A slice of a run stored at offset `start` of a larger sequence. */
  lemma {:induction false} RunSlice<T>(filled: seq<T>, start: nat, run: seq<T>, i: nat, len: nat)
    requires start + |run| <= |filled| && filled[start .. start + |run|] == run
    requires i + len <= |run|
    ensures filled[start + i .. start + i + len] == run[i .. i + len]
  {
    assert forall t :: start + i <= t < start + i + len ==> filled[t] == run[t - start];
  }

  /** GatherBlock for a gathered run stored at offset `start` of a larger buffer. */
  lemma {:induction false} GatheredBlockAt<T>(filled: seq<T>, start: nat, src: seq<T>, n: nat, B: nat, beamIndices: seq<int>, j: int)
    requires |src| == BlockStart(n, B) && InRange(beamIndices, n) && 0 <= j < |beamIndices|
    requires start + BlockStart(|beamIndices|, B) <= |filled|
    requires filled[start .. start + BlockStart(|beamIndices|, B)] == Gather(src, n, B, beamIndices)
    ensures start + BlockStart(j, B) + B <= |filled|
    ensures filled[start + BlockStart(j, B) .. start + BlockStart(j, B) + B] == Block(src, n, B, beamIndices[j])
  {
    GatherBlock(src, n, B, beamIndices, j);
    RunSlice(filled, start, Gather(src, n, B, beamIndices), BlockStart(j, B), B);
  }

  /** Element form of GatherBlock: element `k` of destination block `j` is
      element `k` of source block `beamIndices[j]`. */
  lemma {:induction false} GatherAt<T>(src: seq<T>, n: nat, B: nat, beamIndices: seq<int>, j: int, k: int)
    requires |src| == BlockStart(n, B) && InRange(beamIndices, n)
    requires 0 <= j < |beamIndices| && 0 <= k < B
    ensures BlockStart(j, B) + k < BlockStart(|beamIndices|, B)
    ensures BlockStart(beamIndices[j], B) + k < |src|
    ensures Gather(src, n, B, beamIndices)[BlockStart(j, B) + k] == src[BlockStart(beamIndices[j], B) + k]
  {
    GatherBlock(src, n, B, beamIndices, j);
    BlockFits(beamIndices[j], n, B);
    var g, lo := Gather(src, n, B, beamIndices), BlockStart(j, B);
    assert g[lo .. lo + B][k] == g[lo + k];
  }

  /** Two destination slots fed from the same source slot (one hypothesis
      spawning several children) receive identical blocks. */
  lemma {:induction false} DuplicatedSourceSameBlock<T>(src: seq<T>, n: nat, B: nat, beamIndices: seq<int>, j1: int, j2: int)
    requires |src| == BlockStart(n, B) && InRange(beamIndices, n)
    requires 0 <= j1 < |beamIndices| && 0 <= j2 < |beamIndices|
    requires beamIndices[j1] == beamIndices[j2]
    ensures BlockStart(j1, B) + B <= BlockStart(|beamIndices|, B)
    ensures BlockStart(j2, B) + B <= BlockStart(|beamIndices|, B)
    ensures Gather(src, n, B, beamIndices)[BlockStart(j1, B) .. BlockStart(j1, B) + B]
         == Gather(src, n, B, beamIndices)[BlockStart(j2, B) .. BlockStart(j2, B) + B]
  {
    GatherBlock(src, n, B, beamIndices, j1);
    GatherBlock(src, n, B, beamIndices, j2);
  }

  /** Source slots that no index names (pruned hypotheses) do not influence the
      result: two sources that agree on every picked block reorder alike. */
  lemma {:induction false} GatherIgnoresUnpicked<T>(src1: seq<T>, src2: seq<T>, n: nat, B: nat, beamIndices: seq<int>)
    requires |src1| == BlockStart(n, B) && |src2| == BlockStart(n, B) && InRange(beamIndices, n)
    requires forall j :: 0 <= j < |beamIndices| ==>
      Block(src1, n, B, beamIndices[j]) == Block(src2, n, B, beamIndices[j])
    ensures Gather(src1, n, B, beamIndices) == Gather(src2, n, B, beamIndices)
  {
    if beamIndices != [] {
      var m := |beamIndices| - 1;
      var front := beamIndices[..m];
      forall j | 0 <= j < |front|
        ensures Block(src1, n, B, front[j]) == Block(src2, n, B, front[j])
      {
        assert front[j] == beamIndices[j];
      }
      GatherIgnoresUnpicked(src1, src2, n, B, front);
    }
  }

  /** The indices 0, 1, ..., m - 1. */
  function Iota(m: nat): (r: seq<int>)
    ensures |r| == m && forall j :: 0 <= j < m ==> r[j] == j
  {
    seq(m, j => j)
  }

  /** Picking the first `m` slots in order copies the first `m` blocks. */
  lemma {:induction false} GatherIotaPrefix<T>(src: seq<T>, n: nat, B: nat, m: nat)
    requires |src| == BlockStart(n, B) && m <= n
    ensures BlockStart(m, B) <= |src|
    ensures Gather(src, n, B, Iota(m)) == src[..BlockStart(m, B)]
  {
    BlockStartMono(m, n, B);
    if m > 0 {
      var idx, lo := Iota(m), BlockStart(m - 1, B);
      GatherIotaPrefix(src, n, B, m - 1);
      assert idx[..m - 1] == Iota(m - 1);
      assert Gather(src, n, B, idx) == Gather(src, n, B, Iota(m - 1)) + Block(src, n, B, m - 1);
      assert src[..lo + B] == src[..lo] + src[lo .. lo + B];
    }
  }

  /** The identity mapping reproduces the source exactly. */
  lemma {:induction false} GatherIdentity<T>(src: seq<T>, n: nat, B: nat)
    requires |src| == BlockStart(n, B)
    ensures Gather(src, n, B, Iota(n)) == src
  {
    GatherIotaPrefix(src, n, B, n);
  }

  /** Beams {A, B, C} reordered by [2, 2, 0] give {C, C, A}: slots 0 and 1 both
      inherit old slot 2, and slot 2 inherits old slot 0. */
  lemma {:induction false} ReorderExample<T>(a: seq<T>, b: seq<T>, c: seq<T>)
    requires |a| == |b| == |c|
    ensures BlockStart(3, |a|) == |a + b + c|
    ensures Gather(a + b + c, 3, |a|, [2, 2, 0]) == c + c + a
  {
    var B := |a|;
    var src := a + b + c;
    var idx: seq<int> := [2, 2, 0];
    assert BlockStart(1, B) == B;
    assert BlockStart(2, B) == B + B;
    assert Block(src, 3, B, 2) == c;
    assert Block(src, 3, B, 0) == a;
    assert idx[..2] == [2, 2];
    assert idx[..2][..1] == [2];
    assert [2][..0] == [];
    assert Gather(src, 3, B, [2]) == c;
    assert Gather(src, 3, B, [2, 2]) == c + c;
  }

  /** Element form of GatherBlock over a whole destination block: position `t`
      of destination block `j` holds the matching position of source block
      `beamIndices[j]`. */
  lemma {:induction false} GatherBlockElements<T>(src: seq<T>, n: nat, B: nat, beamIndices: seq<int>, j: int)
    requires |src| == BlockStart(n, B) && InRange(beamIndices, n)
    requires 0 <= j < |beamIndices|
    ensures BlockStart(j, B) + B <= BlockStart(|beamIndices|, B)
    ensures BlockStart(beamIndices[j], B) + B <= |src|
    ensures forall t :: BlockStart(j, B) <= t < BlockStart(j, B) + B ==>
      Gather(src, n, B, beamIndices)[t] == src[t - BlockStart(j, B) + BlockStart(beamIndices[j], B)]
  {
    var lo, from := BlockStart(j, B), BlockStart(beamIndices[j], B);
    GatherBlock(src, n, B, beamIndices, j);
    BlockFits(beamIndices[j], n, B);
    var g := Gather(src, n, B, beamIndices);
    forall t | lo <= t < lo + B
      ensures g[t] == src[t - lo + from]
    {
      assert g[t] == g[lo .. lo + B][t - lo];
      assert src[t - lo + from] == src[from .. from + B][t - lo];
    }
  }

  /** `std::copy` of one subspan into another: `count` elements from
      `src[srcStart..]` to `dst[dstStart..]`; the rest of `dst` is untouched. */
  method Copy<T>(src: array<T>, srcStart: nat, dst: array<T>, dstStart: nat, count: nat)
    requires src != dst
    requires srcStart + count <= src.Length && dstStart + count <= dst.Length
    modifies dst
    ensures forall k :: dstStart <= k < dstStart + count ==> dst[k] == src[k - dstStart + srcStart]
    ensures forall k :: 0 <= k < dst.Length && !(dstStart <= k < dstStart + count) ==> dst[k] == old(dst[k])
  {
    var i := 0;
    while i < count
      invariant 0 <= i <= count
      invariant forall k :: dstStart <= k < dstStart + i ==> dst[k] == src[k - dstStart + srcStart]
      invariant forall k :: 0 <= k < dst.Length && !(dstStart <= k < dstStart + i) ==> dst[k] == old(dst[k])
    {
      dst[dstStart + i] := src[srcStart + i];
      i := i + 1;
    }
  }
}
