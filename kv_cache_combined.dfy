/** KV_Cache_Combined: one fused key+value tensor per layer, of shape
    {2, batch*beams, heads, sequence, hidden}. Axis 0 selects the key half
    (elements [0, K)) or the value half (elements [K, 2K)). */
module CombinedKvCache {
  import opened Tensors
  import opened Bindings
  import opened Reorder

  predicate IsCombinedShape(shape: seq<nat>)
  {
    |shape| == 5 && shape[0] == 2
  }

  /** Elements of one beam slot within one half: heads * sequence * hidden,
      the element count of the trailing three dimensions. */
  function BlockSizePerBeam(shape: seq<nat>): (r: nat)
    requires IsCombinedShape(shape)
    ensures r == ElementCount(shape[2..])
  {
    ElementCountOfThree(shape[2..]);
    shape[2] * shape[3] * shape[4]
  }

  /** Elements of the key half; the value half starts at this offset. It is the
      element count of the shape without its leading axis of 2. */
  function PastKeySize(shape: seq<nat>): (r: nat)
    requires IsCombinedShape(shape)
    ensures r == ElementCount(shape[1..])
  {
    assert shape[1..][1..] == shape[2..];
    shape[1] * BlockSizePerBeam(shape)
  }

  /** The fused tensor is exactly two halves of `PastKeySize` elements. */
  lemma {:induction false} CombinedElementCount(shape: seq<nat>)
    requires IsCombinedShape(shape)
    ensures ElementCount(shape) == 2 * PastKeySize(shape)
  {
    assert ElementCount(shape) == shape[0] * ElementCount(shape[1..]);
  }

  /** Key/value isolation: for destination slot `j` and source slot `b`, both
      below the beam-slot count, the key subspans lie inside [0, K) and the value
      subspans inside [K, 2K), so no key copy touches a value and vice versa. */
  lemma {:induction false} KeyValueIsolation(shape: seq<nat>, j: int, b: int)
    requires IsCombinedShape(shape)
    requires 0 <= j < shape[1] && 0 <= b < shape[1]
    ensures var B, K := BlockSizePerBeam(shape), PastKeySize(shape);
      K == BlockStart(shape[1], B) &&
      BlockStart(j, B) + B <= K && BlockStart(b, B) + B <= K &&
      K + BlockStart(j, B) + B <= 2 * K &&
      K + BlockStart(b, B) + B <= 2 * K &&
      2 * K == ElementCount(shape)
  {
    BlockFits(j, shape[1], BlockSizePerBeam(shape));
    BlockFits(b, shape[1], BlockSizePerBeam(shape));
    BlockStartProduct(shape[1], BlockSizePerBeam(shape));
    CombinedElementCount(shape);
  }

  /** `past` is the reorder of the fused buffer `present` by `beamIndices`: its
      first |beamIndices| key blocks gather the key half and its first
      |beamIndices| value blocks gather the value half. Blocks past
      |beamIndices| in either half are left as allocated. */
  ghost predicate CombinedReordered<T>(past: seq<T>, present: seq<T>, n: nat, B: nat, beamIndices: seq<int>)
  {
    var K := BlockStart(n, B);
    |present| == 2 * K && |past| == 2 * K && ValidBeamIndices(beamIndices, n) &&
    (BlockStartMono(|beamIndices|, n, B);
     past[..BlockStart(|beamIndices|, B)] == Gather(present[..K], n, B, beamIndices) &&
     past[K .. K + BlockStart(|beamIndices|, B)] == Gather(present[K..], n, B, beamIndices))
  }

  /** With one index per beam slot the whole fused buffer is determined: the
      reordered key half followed by the reordered value half. */
  lemma {:induction false} CombinedFullReorder<T>(past: seq<T>, present: seq<T>, n: nat, B: nat, beamIndices: seq<int>)
    requires CombinedReordered(past, present, n, B, beamIndices)
    requires |beamIndices| == n
    ensures var K := BlockStart(n, B);
      past == Gather(present[..K], n, B, beamIndices) + Gather(present[K..], n, B, beamIndices)
  {
  }

  /** Key slot `j` of the reordered fused buffer is key slot `beamIndices[j]`
      of the present buffer. */
  lemma {:induction false} ReorderedKeyBlock<T>(past: seq<T>, present: seq<T>, n: nat, B: nat, beamIndices: seq<int>, j: int)
    requires CombinedReordered(past, present, n, B, beamIndices)
    requires 0 <= j < |beamIndices|
    ensures var lo, from := BlockStart(j, B), BlockStart(beamIndices[j], B);
      lo + B <= BlockStart(n, B) && from + B <= BlockStart(n, B) &&
      past[lo .. lo + B] == present[from .. from + B]
    ensures BlockStart(j, B) == j * B && BlockStart(beamIndices[j], B) == beamIndices[j] * B
  {
    var K, L := BlockStart(n, B), BlockStart(|beamIndices|, B);
    BlockFits(j, n, B);
    BlockStartMono(|beamIndices|, n, B);
    HalfBlocks(present, n, B, beamIndices[j]);
    assert past[0 .. L] == past[..L];
    GatheredBlockAt(past, 0, present[..K], n, B, beamIndices, j);
    BlockStartProduct(j, B);
    BlockStartProduct(beamIndices[j], B);
  }

  /** Value slot `j` of the reordered fused buffer is value slot
      `beamIndices[j]` of the present buffer. */
  lemma {:induction false} ReorderedValueBlock<T>(past: seq<T>, present: seq<T>, n: nat, B: nat, beamIndices: seq<int>, j: int)
    requires CombinedReordered(past, present, n, B, beamIndices)
    requires 0 <= j < |beamIndices|
    ensures var lo, from, K := BlockStart(j, B), BlockStart(beamIndices[j], B), BlockStart(n, B);
      lo + B <= K && from + B <= K &&
      past[K + lo .. K + lo + B] == present[K + from .. K + from + B]
    ensures BlockStart(j, B) == j * B && BlockStart(beamIndices[j], B) == beamIndices[j] * B
  {
    BlockStartMono(|beamIndices|, n, B);
    ValueHalfBlock(past, present, n, B, beamIndices, j);
    BlockStartProduct(j, B);
    BlockStartProduct(beamIndices[j], B);
  }

  /** ReorderedValueBlock from the value-half equation alone. */
  lemma {:induction false} ValueHalfBlock<T>(past: seq<T>, present: seq<T>, n: nat, B: nat, beamIndices: seq<int>, j: int)
    requires |present| == 2 * BlockStart(n, B) && |past| == |present| && InRange(beamIndices, n)
    requires 0 <= j < |beamIndices| && BlockStart(|beamIndices|, B) <= BlockStart(n, B)
    requires past[BlockStart(n, B) .. BlockStart(n, B) + BlockStart(|beamIndices|, B)]
          == Gather(present[BlockStart(n, B)..], n, B, beamIndices)
    ensures var lo, from, K := BlockStart(j, B), BlockStart(beamIndices[j], B), BlockStart(n, B);
      lo + B <= K && from + B <= K &&
      past[K + lo .. K + lo + B] == present[K + from .. K + from + B]
  {
    var K := BlockStart(n, B);
    BlockFits(j, |beamIndices|, B);
    HalfBlocks(present, n, B, beamIndices[j]);
    GatheredBlockAt(past, K, present[K..], n, B, beamIndices, j);
  }

  /** The host branch of the templated PickPastState: allocate a fresh past
      tensor of the current shape and fill it, slot by slot, with the key and
      value blocks of the present slots that `beamIndices` names. The caller
      stores the result in the past slot. */
  method PickPastStateHost<T(0)>(present: Tensor<T>, shape: seq<nat>, beamIndices: seq<int>, instantiation: ElementType)
    returns (past: Tensor<T>)
    requires IsCombinedShape(shape) && present.Valid() && present.shape == shape
    requires ValidBeamIndices(beamIndices, shape[1])
    ensures fresh(past) && fresh(past.data) && past.Valid()
    ensures past.shape == shape && past.elementType == instantiation
    ensures CombinedReordered(past.data[..], present.data[..], shape[1], BlockSizePerBeam(shape), beamIndices)
  {
    var blockSizePerBeam := shape[2] * shape[3] * shape[4];
    var pastKeySize := shape[1] * blockSizePerBeam;
    CombinedElementCount(shape);
    BlockStartProduct(shape[1], blockSizePerBeam);
    past := new Tensor(shape, instantiation);
    ReorderBlocks(present.data, past.data, shape[1], blockSizePerBeam, pastKeySize, beamIndices);
  }

  /** The copy loop of the host branch: for each destination slot `j`, the key
      block and the value block of source slot `beamIndices[j]` go to slot `j`
      of the respective half of `dst`. */
  method ReorderBlocks<T>(src: array<T>, dst: array<T>, n: nat, blockSizePerBeam: nat, pastKeySize: nat,
                          beamIndices: seq<int>)
    requires src != dst && pastKeySize == BlockStart(n, blockSizePerBeam)
    requires src.Length == 2 * pastKeySize && dst.Length == 2 * pastKeySize
    requires ValidBeamIndices(beamIndices, n)
    modifies dst
    ensures CombinedReordered(dst[..], src[..], n, blockSizePerBeam, beamIndices)
  {
    ghost var B, source := blockSizePerBeam, src[..];
    ghost var keys, values := source[..pastKeySize], source[pastKeySize..];
    BlockStartMono(|beamIndices|, n, B);
    ghost var gatheredKeys, gatheredValues := Gather(keys, n, B, beamIndices), Gather(values, n, B, beamIndices);
    var j := 0;
    while j < |beamIndices|
      invariant 0 <= j <= |beamIndices|
      invariant src[..] == source
      invariant BlockStart(j, B) <= BlockStart(|beamIndices|, B) <= pastKeySize
      invariant forall t :: 0 <= t < BlockStart(j, B) ==> dst[t] == gatheredKeys[t]
      invariant forall t :: pastKeySize <= t < pastKeySize + BlockStart(j, B) ==>
        dst[t] == gatheredValues[t - pastKeySize]
    {
      var beamIndex := beamIndices[j];
      var lo, from := BlockStart(j, blockSizePerBeam), BlockStart(beamIndex, blockSizePerBeam);
      GatheredHalvesAt(source, n, B, pastKeySize, beamIndices, j);
      CopyBeam(src, dst, blockSizePerBeam, pastKeySize, from, lo, gatheredKeys, gatheredValues);
      BlockStartSucc(j, B);
      j := j + 1;
    }
    assert src[..] == source;
    ReorderedFromElements(dst[..], source, n, B, beamIndices);
  }

  /** Element form of the gathered key and value runs at destination block `j`:
      each position holds the matching position of source block `beamIndices[j]`
      in the same half. */
  lemma {:induction false} GatheredHalvesAt<T>(source: seq<T>, n: nat, B: nat, pastKeySize: nat,
                                                beamIndices: seq<int>, j: nat)
    requires pastKeySize == BlockStart(n, B) && |source| == 2 * pastKeySize
    requires ValidBeamIndices(beamIndices, n) && j < |beamIndices|
    ensures BlockStart(j, B) + B <= BlockStart(|beamIndices|, B) <= pastKeySize
    ensures BlockStart(beamIndices[j], B) + B <= pastKeySize
    ensures forall t :: BlockStart(j, B) <= t < BlockStart(j, B) + B ==>
      Gather(source[..pastKeySize], n, B, beamIndices)[t] ==
        source[t - BlockStart(j, B) + BlockStart(beamIndices[j], B)]
    ensures forall t :: BlockStart(j, B) <= t < BlockStart(j, B) + B ==>
      Gather(source[pastKeySize..], n, B, beamIndices)[t] ==
        source[pastKeySize + (t - BlockStart(j, B) + BlockStart(beamIndices[j], B))]
  {
    var keys, values := source[..pastKeySize], source[pastKeySize..];
    BlockStartMono(|beamIndices|, n, B);
    GatherBlockElements(keys, n, B, beamIndices, j);
    GatherBlockElements(values, n, B, beamIndices, j);
  }

  /** The two copies of one iteration of the copy loop: key block `from` to key
      block `lo` and value block `from` to value block `lo`. If the source
      blocks are what the gathered runs hold at `lo`, both runs grow by one block. */
  method CopyBeam<T>(src: array<T>, dst: array<T>, blockSizePerBeam: nat, pastKeySize: nat, from: nat, lo: nat,
                     ghost gatheredKeys: seq<T>, ghost gatheredValues: seq<T>)
    requires src != dst && src.Length == 2 * pastKeySize && dst.Length == 2 * pastKeySize
    requires from + blockSizePerBeam <= pastKeySize && lo + blockSizePerBeam <= pastKeySize
    requires lo + blockSizePerBeam <= |gatheredKeys| && lo + blockSizePerBeam <= |gatheredValues|
    requires forall t :: lo <= t < lo + blockSizePerBeam ==> gatheredKeys[t] == src[t - lo + from]
    requires forall t :: lo <= t < lo + blockSizePerBeam ==> gatheredValues[t] == src[pastKeySize + (t - lo + from)]
    requires forall t :: 0 <= t < lo ==> dst[t] == gatheredKeys[t]
    requires forall t :: pastKeySize <= t < pastKeySize + lo ==> dst[t] == gatheredValues[t - pastKeySize]
    modifies dst
    ensures forall t :: 0 <= t < lo + blockSizePerBeam ==> dst[t] == gatheredKeys[t]
    ensures forall t :: pastKeySize <= t < pastKeySize + lo + blockSizePerBeam ==>
      dst[t] == gatheredValues[t - pastKeySize]
  {
    Copy(src, from, dst, lo, blockSizePerBeam);
    Copy(src, pastKeySize + from, dst, pastKeySize + lo, blockSizePerBeam);
  }

  /** CombinedReordered from its element form: the gathered key and value runs
      are the prefixes of the two halves. */
  lemma {:induction false} ReorderedFromElements<T>(past: seq<T>, present: seq<T>, n: nat, B: nat, beamIndices: seq<int>)
    requires |present| == 2 * BlockStart(n, B) && |past| == |present| && ValidBeamIndices(beamIndices, n)
    requires BlockStart(|beamIndices|, B) <= BlockStart(n, B)
    requires forall t :: 0 <= t < BlockStart(|beamIndices|, B) ==>
      past[t] == Gather(present[..BlockStart(n, B)], n, B, beamIndices)[t]
    requires forall t :: BlockStart(n, B) <= t < BlockStart(n, B) + BlockStart(|beamIndices|, B) ==>
      past[t] == Gather(present[BlockStart(n, B)..], n, B, beamIndices)[t - BlockStart(n, B)]
    ensures CombinedReordered(past, present, n, B, beamIndices)
  {
  }

  /** Block `b` of the fused buffer's key half and of its value half, located
      in the fused buffer itself. */
  lemma {:induction false} HalfBlocks<T>(present: seq<T>, n: nat, B: nat, b: int)
    requires |present| == 2 * BlockStart(n, B) && 0 <= b < n
    ensures var from, K := BlockStart(b, B), BlockStart(n, B);
      from + B <= K &&
      present[from .. from + B] == Block(present[..K], n, B, b) &&
      present[K + from .. K + from + B] == Block(present[K..], n, B, b)
  {
    var from, K := BlockStart(b, B), BlockStart(n, B);
    BlockFits(b, n, B);
    RunSlice(present, 0, present[..K], from, B);
    RunSlice(present, K, present[K..], from, B);
  }

  /** The combined cache: one past and one present slot per layer. */
  class KvCacheCombined<T(0)> {
    const layerCount: nat
    const beamSlots: nat          // batch_size * num_beams
    const heads: nat
    const hiddenSize: nat
    const scoreType: ElementType
    const isCuda: bool            // the allocator places tensors on the device
    const emptyPast: Tensor<T>    // zero-length placeholder for the first step
    const inputNames: seq<Binding>
    const outputNames: seq<Binding>
    var shape: seq<nat>
    var pasts: seq<Tensor?<T>>
    var presents: seq<Tensor<T>>

    /** The cache's shape at a given sequence length; no other dimension changes. */
    function ShapeAt(sequenceLength: nat): (s: seq<nat>)
      ensures IsCombinedShape(s)
    {
      [2, beamSlots, heads, sequenceLength, hiddenSize]
    }

    /** Slot counts, shapes and buffer sizes agree. */
    ghost predicate Consistent()
      reads this
    {
      |shape| == 5 && shape == ShapeAt(shape[3]) &&
      emptyPast.Valid() && emptyPast.shape == ShapeAt(0) &&
      |pasts| == layerCount && |presents| == layerCount &&
      |inputNames| == layerCount && |outputNames| == layerCount &&
      (forall i :: 0 <= i < |presents| ==>
        presents[i].Valid() && presents[i].shape == shape && presents[i].elementType == scoreType) &&
      (forall i :: 0 <= i < |pasts| && pasts[i] != null ==> pasts[i].Valid())
    }

    /** No two past slots share a buffer. */
    ghost predicate DistinctPasts()
      reads this
    {
      forall i, k :: 0 <= i < k < |pasts| && pasts[i] != null && pasts[k] != null ==>
        pasts[i].data != pasts[k].data
    }

    /** Every buffer is owned by exactly one slot. */
    ghost predicate Exclusive()
      reads this
    {
      (forall i, k :: 0 <= i < k < |presents| ==> presents[i].data != presents[k].data) &&
      DistinctPasts() &&
      (forall i, k :: 0 <= i < |presents| && 0 <= k < |pasts| && pasts[k] != null ==>
        presents[i].data != pasts[k].data)
    }

    ghost predicate Valid()
      reads this
    {
      Consistent() && Exclusive()
    }

    /** Constructor: the placeholder past at sequence length 0, one present per
        layer at the prompt's sequence length, empty past slots, and one input
        and one output name per layer. */
    constructor (batchSize: nat, numBeams: nat, heads: nat, hiddenSize: nat, sequenceLength: nat,
                 layerCount: nat, scoreType: ElementType, deviceIsGpu: bool)
      ensures Valid()
      ensures this.layerCount == layerCount && beamSlots == batchSize * numBeams
      ensures this.heads == heads && this.hiddenSize == hiddenSize
      ensures this.scoreType == scoreType && isCuda == deviceIsGpu
      ensures shape == [2, batchSize * numBeams, heads, sequenceLength, hiddenSize]
      ensures fresh(emptyPast) && fresh(emptyPast.data) && emptyPast.elementType == scoreType
      ensures forall i :: 0 <= i < layerCount ==> pasts[i] == null && fresh(presents[i].data)
      ensures forall i :: 0 <= i < layerCount ==>
        inputNames[i] == Binding(Past, i) && outputNames[i] == Binding(Present, i)
    {
      var initialShape := [2, batchSize * numBeams, heads, 0, hiddenSize];
      var placeholder := new Tensor(initialShape, scoreType);
      var presentShape := initialShape[3 := sequenceLength];
      var made: seq<Tensor<T>> := [];
      var ins: seq<Binding> := [];
      var outs: seq<Binding> := [];
      for i := 0 to layerCount
        invariant |made| == i && |ins| == i && |outs| == i
        invariant forall k :: 0 <= k < i ==>
          made[k].Valid() && made[k].shape == presentShape && made[k].elementType == scoreType &&
          fresh(made[k].data) && made[k].data != placeholder.data
        invariant forall k, k2 :: 0 <= k < k2 < i ==> made[k].data != made[k2].data
        invariant forall k :: 0 <= k < i ==> ins[k] == Binding(Past, k) && outs[k] == Binding(Present, k)
      {
        var t := new Tensor(presentShape, scoreType);
        made := made + [t];
        ins := ins + [Binding(Past, i)];
        outs := outs + [Binding(Present, i)];
      }
      this.layerCount := layerCount;
      beamSlots := batchSize * numBeams;
      this.heads := heads;
      this.hiddenSize := hiddenSize;
      this.scoreType := scoreType;
      isCuda := deviceIsGpu;
      emptyPast := placeholder;
      inputNames := ins;
      outputNames := outs;
      shape := presentShape;
      pasts := seq(layerCount, _ => null);
      presents := made;
    }

    /** The type-dispatching PickPastState: reorder present slot `index` into a
        fresh past tensor of the current shape, whose element type is the
        instantiation the score type dispatches to, and store it in past slot
        `index`. */
    method PickPastState(beamIndices: seq<int>, index: nat)
      requires Consistent()
      requires ValidBeamIndices(beamIndices, beamSlots) && index < layerCount
      modifies this
      ensures Consistent()
      ensures old(Exclusive()) ==> Exclusive()
      ensures shape == old(shape) && presents == old(presents)
      ensures |pasts| == |old(pasts)|
      ensures forall i :: 0 <= i < |pasts| && i != index ==> pasts[i] == old(pasts[i])
      ensures pasts[index] != null && fresh(pasts[index].data)
      ensures pasts[index].shape == shape && pasts[index].elementType == CopyInstantiation(scoreType)
      ensures CombinedReordered(pasts[index].data[..], presents[index].data[..],
                                beamSlots, BlockSizePerBeam(shape), beamIndices)
    {
      var past := PickPastStateHost(presents[index], shape, beamIndices, CopyInstantiation(scoreType));
      pasts := pasts[index := past];
    }

    /** Advance one decoding step. With no beam indices each past slot takes
        over its present tensor (no copy); otherwise each past slot becomes a
        fresh reorder of its present slot at the sequence length in effect
        before the call. Then every present slot is reallocated at
        `currentLength`. */
    method Update(beamIndices: seq<int>, currentLength: nat)
      requires Valid()
      requires ValidBeamIndices(beamIndices, beamSlots)
      modifies this
      ensures Valid()
      ensures shape == old(shape)[3 := currentLength]
      ensures beamIndices == [] ==> pasts == old(presents)
      ensures forall i :: 0 <= i < layerCount ==> pasts[i] != null && pasts[i].shape == old(shape)
      ensures beamIndices != [] ==> forall i :: 0 <= i < layerCount ==>
        pasts[i] != null && fresh(pasts[i].data) &&
        pasts[i].elementType == CopyInstantiation(scoreType) &&
        CombinedReordered(pasts[i].data[..], old(presents[i].data[..]),
                          beamSlots, BlockSizePerBeam(old(shape)), beamIndices)
      ensures forall i :: 0 <= i < layerCount ==> fresh(presents[i].data)
    {
      if beamIndices == [] {
        TakeOverPresents();
      } else {
        ReorderPasts(beamIndices);
      }
      ReallocatePresents(currentLength);
    }

    /** The first loop of Update with no beam indices: each past slot takes
        over its present tensor without a copy. Each buffer is then owned by a
        past and a present slot at once until ReallocatePresents runs. */
    method TakeOverPresents()
      requires Valid()
      modifies this
      ensures Consistent() && DistinctPasts()
      ensures shape == old(shape) && presents == old(presents) && pasts == old(presents)
    {
      for i := 0 to layerCount
        invariant Consistent() && DistinctPasts()
        invariant shape == old(shape) && presents == old(presents)
        invariant forall k :: i <= k < layerCount ==> pasts[k] == old(pasts[k])
        invariant pasts[..i] == old(presents)[..i]
      {
        pasts := pasts[i := presents[i]];
      }
      assert pasts == pasts[..layerCount];
    }

    /** The first loop of Update with beam indices: each past slot becomes a
        fresh reorder of its present slot. */
    method ReorderPasts(beamIndices: seq<int>)
      requires Valid()
      requires ValidBeamIndices(beamIndices, beamSlots)
      modifies this
      ensures Valid()
      ensures shape == old(shape) && presents == old(presents)
      ensures forall i :: 0 <= i < layerCount ==>
        pasts[i] != null && fresh(pasts[i].data) && pasts[i].shape == shape &&
        pasts[i].elementType == CopyInstantiation(scoreType) &&
        CombinedReordered(pasts[i].data[..], old(presents[i].data[..]),
                          beamSlots, BlockSizePerBeam(shape), beamIndices)
    {
      for i := 0 to layerCount
        invariant Valid()
        invariant shape == old(shape) && presents == old(presents)
        invariant forall k :: 0 <= k < i ==>
          pasts[k] != null && fresh(pasts[k].data) && pasts[k].shape == shape &&
          pasts[k].elementType == CopyInstantiation(scoreType) &&
          CombinedReordered(pasts[k].data[..], old(presents[k].data[..]),
                            beamSlots, BlockSizePerBeam(shape), beamIndices)
      {
        PickPastState(beamIndices, i);
      }
    }

    /** The tail of Update: the sequence dimension becomes `currentLength` and
        every present slot gets a fresh tensor of the new shape. */
    method ReallocatePresents(currentLength: nat)
      requires Consistent() && DistinctPasts()
      modifies this
      ensures Valid()
      ensures shape == old(shape)[3 := currentLength] && pasts == old(pasts)
      ensures forall i :: 0 <= i < layerCount ==> fresh(presents[i].data)
    {
      shape := shape[3 := currentLength];
      ghost var settled := pasts;
      for i := 0 to layerCount
        invariant shape == old(shape)[3 := currentLength] && pasts == settled
        invariant |presents| == layerCount
        invariant forall k :: 0 <= k < i ==>
          presents[k].Valid() && presents[k].shape == shape && presents[k].elementType == scoreType &&
          fresh(presents[k].data)
        invariant forall k, k2 :: 0 <= k < k2 < i ==> presents[k].data != presents[k2].data
        invariant forall k, p :: 0 <= k < i && 0 <= p < |pasts| && pasts[p] != null ==>
          presents[k].data != pasts[p].data
      {
        var t := new Tensor(shape, scoreType);
        presents := presents[i := t];
      }
    }
  }
}
