/** KV_Cache: separate key and value tensors per layer, each of shape
    {batch*beams, heads, sequence, hidden}. Slot 2i holds the key tensor of
    layer i and slot 2i+1 its value tensor. */
module SplitKvCache {
  import opened Tensors
  import opened Bindings
  import opened Reorder

  predicate IsSplitShape(shape: seq<nat>)
  {
    |shape| == 4
  }

  /** Elements of one beam slot: heads * sequence * hidden, the element count
      of the trailing three dimensions. */
  function BlockSizePerBeam(shape: seq<nat>): (r: nat)
    requires IsSplitShape(shape)
    ensures r == ElementCount(shape[1..])
  {
    ElementCountOfThree(shape[1..]);
    shape[1] * shape[2] * shape[3]
  }

  /** A split tensor is exactly one block per beam slot. */
  lemma {:induction false} SplitElementCount(shape: seq<nat>)
    requires IsSplitShape(shape)
    ensures ElementCount(shape) == shape[0] * BlockSizePerBeam(shape)
    ensures ElementCount(shape) == BlockStart(shape[0], BlockSizePerBeam(shape))
  {
    assert ElementCount(shape) == shape[0] * ElementCount(shape[1..]);
    BlockStartProduct(shape[0], BlockSizePerBeam(shape));
  }

  /** `past` is the reorder of `present` by `beamIndices`: its first
      |beamIndices| blocks gather the blocks of `present` that `beamIndices`
      names. Blocks past |beamIndices| are left as allocated. */
  ghost predicate SplitReordered<T>(past: seq<T>, present: seq<T>, n: nat, B: nat, beamIndices: seq<int>)
  {
    |present| == BlockStart(n, B) && |past| == |present| && ValidBeamIndices(beamIndices, n) &&
    (BlockStartMono(|beamIndices|, n, B);
     past[..BlockStart(|beamIndices|, B)] == Gather(present, n, B, beamIndices))
  }

  /** With one index per beam slot the whole buffer is determined. */
  lemma {:induction false} SplitFullReorder<T>(past: seq<T>, present: seq<T>, n: nat, B: nat, beamIndices: seq<int>)
    requires SplitReordered(past, present, n, B, beamIndices)
    requires |beamIndices| == n
    ensures past == Gather(present, n, B, beamIndices)
  {
  }

  /** Slot `j` of the reordered buffer is slot `beamIndices[j]` of the present
      buffer. */
  lemma {:induction false} SplitReorderedBlock<T>(past: seq<T>, present: seq<T>, n: nat, B: nat, beamIndices: seq<int>, j: int)
    requires SplitReordered(past, present, n, B, beamIndices)
    requires 0 <= j < |beamIndices|
    ensures var lo, from := BlockStart(j, B), BlockStart(beamIndices[j], B);
      lo + B <= |past| && from + B <= |present| &&
      past[lo .. lo + B] == present[from .. from + B]
    ensures BlockStart(j, B) == j * B && BlockStart(beamIndices[j], B) == beamIndices[j] * B
  {
    var L := BlockStart(|beamIndices|, B);
    BlockFits(j, n, B);
    BlockFits(beamIndices[j], n, B);
    BlockStartMono(|beamIndices|, n, B);
    assert past[0 .. L] == past[..L];
    GatheredBlockAt(past, 0, present, n, B, beamIndices, j);
    BlockStartProduct(j, B);
    BlockStartProduct(beamIndices[j], B);
  }

  /** The host branch of the templated PickPastState: allocate a fresh past
      tensor of the current shape and fill it, slot by slot, with the blocks of
      the present slots that `beamIndices` names. The caller stores the result
      in the past slot. */
  method PickPastStateHost<T(0)>(present: Tensor<T>, shape: seq<nat>, beamIndices: seq<int>, instantiation: ElementType)
    returns (past: Tensor<T>)
    requires IsSplitShape(shape) && present.Valid() && present.shape == shape
    requires ValidBeamIndices(beamIndices, shape[0])
    ensures fresh(past) && fresh(past.data) && past.Valid()
    ensures past.shape == shape && past.elementType == instantiation
    ensures SplitReordered(past.data[..], present.data[..], shape[0], BlockSizePerBeam(shape), beamIndices)
  {
    var blockSizePerBeam := shape[1] * shape[2] * shape[3];
    SplitElementCount(shape);
    past := new Tensor(shape, instantiation);
    GatherBlocks(present.data, past.data, shape[0], blockSizePerBeam, beamIndices);
  }

  /** The copy loop of the host branch: block `beamIndices[j]` of `src` goes to
      block `j` of `dst`. */
  method GatherBlocks<T>(src: array<T>, dst: array<T>, n: nat, blockSizePerBeam: nat, beamIndices: seq<int>)
    requires src != dst
    requires src.Length == BlockStart(n, blockSizePerBeam) && dst.Length == src.Length
    requires ValidBeamIndices(beamIndices, n)
    modifies dst
    ensures SplitReordered(dst[..], src[..], n, blockSizePerBeam, beamIndices)
  {
    ghost var B, source := blockSizePerBeam, src[..];
    BlockStartMono(|beamIndices|, n, B);
    ghost var gathered := Gather(source, n, B, beamIndices);
    var j := 0;
    while j < |beamIndices|
      invariant 0 <= j <= |beamIndices|
      invariant src[..] == source
      invariant BlockStart(j, B) <= BlockStart(|beamIndices|, B) <= src.Length
      invariant forall t :: 0 <= t < BlockStart(j, B) ==> dst[t] == gathered[t]
    {
      var beamIndex := beamIndices[j];
      var lo, from := BlockStart(j, blockSizePerBeam), BlockStart(beamIndex, blockSizePerBeam);
      GatherBlockElements(source, n, B, beamIndices, j);
      Copy(src, from, dst, lo, blockSizePerBeam);
      BlockStartSucc(j, B);
      j := j + 1;
    }
    GatheredFromElements(dst[..], source, n, B, beamIndices);
  }

  /** SplitReordered from its element form. */
  lemma {:induction false} GatheredFromElements<T>(past: seq<T>, present: seq<T>, n: nat, B: nat, beamIndices: seq<int>)
    requires |present| == BlockStart(n, B) && |past| == |present| && ValidBeamIndices(beamIndices, n)
    requires BlockStart(|beamIndices|, B) <= BlockStart(n, B)
    requires forall t :: 0 <= t < BlockStart(|beamIndices|, B) ==> past[t] == Gather(present, n, B, beamIndices)[t]
    ensures SplitReordered(past, present, n, B, beamIndices)
  {
  }

  class KvCache<T(0)> {
    const layerCount: nat
    const beamSlots: nat          // batch_size * num_beams
    const heads: nat
    const hiddenSize: nat
    const scoreType: ElementType
    const isCuda: bool            // the allocator places tensors on the device
    const emptyPast: Tensor<T>    // zero-length placeholder for the first step
    const inputNames: seq<Binding>
    const outputNames: seq<Binding>
    var shape: seq<nat>
    var pasts: seq<Tensor?<T>>
    var presents: seq<Tensor<T>>

    /** The cache's shape at a given sequence length; no other dimension changes. */
    function ShapeAt(sequenceLength: nat): (s: seq<nat>)
      ensures IsSplitShape(s) && s[2] == sequenceLength
    {
      [beamSlots, heads, sequenceLength, hiddenSize]
    }

    /** Two slots per layer; slot counts, shapes and buffer sizes agree. */
    ghost predicate Consistent()
      reads this
    {
      |shape| == 4 && shape == ShapeAt(shape[2]) &&
      emptyPast.Valid() && emptyPast.shape == ShapeAt(0) &&
      |pasts| == 2 * layerCount && |presents| == 2 * layerCount &&
      |inputNames| == 2 * layerCount && |outputNames| == 2 * layerCount &&
      (forall i :: 0 <= i < |presents| ==>
        presents[i].Valid() && presents[i].shape == shape && presents[i].elementType == scoreType) &&
      (forall i :: 0 <= i < |pasts| && pasts[i] != null ==> pasts[i].Valid())
    }

    /** No two past slots share a buffer. */
    ghost predicate DistinctPasts()
      reads this
    {
      forall i, k :: 0 <= i < k < |pasts| && pasts[i] != null && pasts[k] != null ==>
        pasts[i].data != pasts[k].data
    }

    /** Every buffer is owned by exactly one slot. */
    ghost predicate Exclusive()
      reads this
    {
      (forall i, k :: 0 <= i < k < |presents| ==> presents[i].data != presents[k].data) &&
      DistinctPasts() &&
      (forall i, k :: 0 <= i < |presents| && 0 <= k < |pasts| && pasts[k] != null ==>
        presents[i].data != pasts[k].data)
    }

    ghost predicate Valid()
      reads this
    {
      Consistent() && Exclusive()
    }

    /** Constructor: the placeholder past at sequence length 0, a key and a
        value present per layer at the prompt's sequence length, empty past
        slots, and the key and value input and output names of each layer, in
        slot order. */
    constructor (batchSize: nat, numBeams: nat, heads: nat, hiddenSize: nat, sequenceLength: nat,
                 layerCount: nat, scoreType: ElementType, deviceIsGpu: bool)
      ensures Valid()
      ensures this.layerCount == layerCount && beamSlots == batchSize * numBeams
      ensures this.heads == heads && this.hiddenSize == hiddenSize
      ensures this.scoreType == scoreType && isCuda == deviceIsGpu
      ensures shape == [batchSize * numBeams, heads, sequenceLength, hiddenSize]
      ensures fresh(emptyPast) && fresh(emptyPast.data) && emptyPast.elementType == scoreType
      ensures forall i :: 0 <= i < 2 * layerCount ==> pasts[i] == null && fresh(presents[i].data)
      ensures forall i :: 0 <= i < layerCount ==>
        inputNames[2 * i] == Binding(PastKey, i) && inputNames[2 * i + 1] == Binding(PastValue, i) &&
        outputNames[2 * i] == Binding(PresentKey, i) && outputNames[2 * i + 1] == Binding(PresentValue, i)
    {
      var initialShape := [batchSize * numBeams, heads, 0, hiddenSize];
      var placeholder := new Tensor(initialShape, scoreType);
      var presentShape := initialShape[2 := sequenceLength];
      var made: seq<Tensor<T>> := [];
      var ins: seq<Binding> := [];
      var outs: seq<Binding> := [];
      for i := 0 to layerCount
        invariant |made| == 2 * i && |ins| == 2 * i && |outs| == 2 * i
        invariant forall k :: 0 <= k < 2 * i ==>
          made[k].Valid() && made[k].shape == presentShape && made[k].elementType == scoreType &&
          fresh(made[k].data) && made[k].data != placeholder.data
        invariant forall k, k2 :: 0 <= k < k2 < 2 * i ==> made[k].data != made[k2].data
        invariant forall k :: 0 <= k < i ==>
          ins[2 * k] == Binding(PastKey, k) && ins[2 * k + 1] == Binding(PastValue, k) &&
          outs[2 * k] == Binding(PresentKey, k) && outs[2 * k + 1] == Binding(PresentValue, k)
      {
        var key := new Tensor(presentShape, scoreType);
        var value := new Tensor(presentShape, scoreType);
        made := made + [key, value];
        ins := ins + [Binding(PastKey, i), Binding(PastValue, i)];
        outs := outs + [Binding(PresentKey, i), Binding(PresentValue, i)];
      }
      this.layerCount := layerCount;
      beamSlots := batchSize * numBeams;
      this.heads := heads;
      this.hiddenSize := hiddenSize;
      this.scoreType := scoreType;
      isCuda := deviceIsGpu;
      emptyPast := placeholder;
      inputNames := ins;
      outputNames := outs;
      shape := presentShape;
      pasts := seq(2 * layerCount, _ => null);
      presents := made;
    }

    /** The type-dispatching PickPastState: reorder present slot `index` into a
        fresh past tensor of the current shape, whose element type is the
        instantiation the score type dispatches to, and store it in past slot
        `index`. */
    method PickPastState(beamIndices: seq<int>, index: nat)
      requires Consistent()
      requires ValidBeamIndices(beamIndices, beamSlots) && index < 2 * layerCount
      modifies this
      ensures Consistent()
      ensures old(Exclusive()) ==> Exclusive()
      ensures shape == old(shape) && presents == old(presents)
      ensures |pasts| == |old(pasts)|
      ensures forall i :: 0 <= i < |pasts| && i != index ==> pasts[i] == old(pasts[i])
      ensures pasts[index] != null && fresh(pasts[index].data)
      ensures pasts[index].shape == shape && pasts[index].elementType == CopyInstantiation(scoreType)
      ensures SplitReordered(pasts[index].data[..], presents[index].data[..],
                             beamSlots, BlockSizePerBeam(shape), beamIndices)
    {
      var past := PickPastStateHost(presents[index], shape, beamIndices, CopyInstantiation(scoreType));
      pasts := pasts[index := past];
    }

    /** Advance one decoding step. With no beam indices each past slot takes
        over its present tensor (no copy); otherwise each past slot becomes a
        fresh reorder of its present slot at the sequence length in effect
        before the call. Then every present slot is reallocated at
        `currentLength`. */
    method Update(beamIndices: seq<int>, currentLength: nat)
      requires Valid()
      requires ValidBeamIndices(beamIndices, beamSlots)
      modifies this
      ensures Valid()
      ensures shape == old(shape)[2 := currentLength]
      ensures beamIndices == [] ==> pasts == old(presents)
      ensures forall i :: 0 <= i < 2 * layerCount ==> pasts[i] != null && pasts[i].shape == old(shape)
      ensures beamIndices != [] ==> forall i :: 0 <= i < 2 * layerCount ==>
        pasts[i] != null && fresh(pasts[i].data) &&
        pasts[i].elementType == CopyInstantiation(scoreType) &&
        SplitReordered(pasts[i].data[..], old(presents[i].data[..]),
                       beamSlots, BlockSizePerBeam(old(shape)), beamIndices)
      ensures forall i :: 0 <= i < 2 * layerCount ==> fresh(presents[i].data)
    {
      if beamIndices == [] {
        TakeOverPresents();
      } else {
        ReorderPasts(beamIndices);
      }
      ReallocatePresents(currentLength);
    }

    /** The first loop of Update with no beam indices: each past slot takes
        over its present tensor without a copy. Each buffer is then owned by a
        past and a present slot at once until ReallocatePresents runs. */
    method TakeOverPresents()
      requires Valid()
      modifies this
      ensures Consistent() && DistinctPasts()
      ensures shape == old(shape) && presents == old(presents) && pasts == old(presents)
    {
      for i := 0 to 2 * layerCount
        invariant Consistent() && DistinctPasts()
        invariant shape == old(shape) && presents == old(presents)
        invariant forall k :: i <= k < 2 * layerCount ==> pasts[k] == old(pasts[k])
        invariant pasts[..i] == old(presents)[..i]
      {
        pasts := pasts[i := presents[i]];
      }
      assert pasts == pasts[..2 * layerCount];
    }

    /** The first loop of Update with beam indices: each past slot becomes a
        fresh reorder of its present slot. */
    method ReorderPasts(beamIndices: seq<int>)
      requires Valid()
      requires ValidBeamIndices(beamIndices, beamSlots)
      modifies this
      ensures Valid()
      ensures shape == old(shape) && presents == old(presents)
      ensures forall i :: 0 <= i < 2 * layerCount ==>
        pasts[i] != null && fresh(pasts[i].data) && pasts[i].shape == shape &&
        pasts[i].elementType == CopyInstantiation(scoreType) &&
        SplitReordered(pasts[i].data[..], old(presents[i].data[..]),
                       beamSlots, BlockSizePerBeam(shape), beamIndices)
    {
      for i := 0 to 2 * layerCount
        invariant Valid()
        invariant shape == old(shape) && presents == old(presents)
        invariant forall k :: 0 <= k < i ==>
          pasts[k] != null && fresh(pasts[k].data) && pasts[k].shape == shape &&
          pasts[k].elementType == CopyInstantiation(scoreType) &&
          SplitReordered(pasts[k].data[..], old(presents[k].data[..]),
                         beamSlots, BlockSizePerBeam(shape), beamIndices)
      {
        PickPastState(beamIndices, i);
      }
    }

    /** The tail of Update: the sequence dimension becomes `currentLength` and
        every present slot gets a fresh tensor of the new shape. */
    method ReallocatePresents(currentLength: nat)
      requires Consistent() && DistinctPasts()
      modifies this
      ensures Valid()
      ensures shape == old(shape)[2 := currentLength] && pasts == old(pasts)
      ensures forall i :: 0 <= i < 2 * layerCount ==> fresh(presents[i].data)
    {
      shape := shape[2 := currentLength];
      ghost var settled := pasts;
      for i := 0 to 2 * layerCount
        invariant shape == old(shape)[2 := currentLength] && pasts == settled
        invariant |presents| == 2 * layerCount
        invariant forall k :: 0 <= k < i ==>
          presents[k].Valid() && presents[k].shape == shape && presents[k].elementType == scoreType &&
          fresh(presents[k].data)
        invariant forall k, k2 :: 0 <= k < k2 < i ==> presents[k].data != presents[k2].data
        invariant forall k, p :: 0 <= k < i && 0 <= p < |pasts| && pasts[p] != null ==>
          presents[k].data != pasts[p].data
      {
        var t := new Tensor(shape, scoreType);
        presents := presents[i := t];
      }
    }
  }
}
