# Key/value cache of the beam-search generator

This project models the per-layer key/value cache of the ONNX Runtime GenAI
generator (`src/models/kv_cache.cpp`). The cache comes in two layouts:

- `KV_Cache_Combined` (class `CombinedKvCache.KvCacheCombined`) holds one fused
  tensor per layer, of shape `{2, batch*beams, heads, sequence, hidden}`. The
  key half is elements `[0, K)` and the value half is `[K, 2K)`, where
  `K = (batch*beams) * B` and `B = heads*sequence*hidden`.
- `KV_Cache` (class `SplitKvCache.KvCache`) holds a separate key tensor and value
  tensor per layer, of shape `{batch*beams, heads, sequence, hidden}`. Slot `2i`
  is the key of layer `i` and slot `2i+1` is its value.

Each cache keeps a list of past slots (the model's inputs), a list of present
slots (its outputs) and a mutable shape. `Update(beamIndices, currentLength)`
advances one decoding step in two parts:

- Each past slot either takes over its present tensor, when `beamIndices` is
  empty, or becomes a fresh tensor. The fresh tensor's block `j` is a copy of
  block `beamIndices[j]` of the present tensor. In the combined layout, this
  happens for the key half and the value half separately.
- The sequence dimension becomes `currentLength`, and every present slot is
  reallocated at the new shape.

Tensors are modelled by the class `Tensors.Tensor`: a fixed shape, an
element-type tag and a buffer `array<T>` of opaque elements. Creating a tensor
is its constructor. The reorder is specified by `Reorder.Gather`, which
concatenates the source blocks that the indices name. Block offsets are given
by `Reorder.BlockStart`, i.e. repeated addition, and
`Reorder.BlockStartProduct` ties them to the products `j * B` that the source
computes. The copy loops are proved against `Gather` through pointwise loop
invariants.

The source branches on `beam_indices.empty()` inside the first loop of
`Update`. The index list does not change in that loop, so the model makes the
test once in `Update` and runs one of two loops:

- `TakeOverPresents` moves every present tensor into its past slot.
- `ReorderPasts` calls `PickPastState` for every slot.

The copy loop of each templated `PickPastState` lives in its own method:
`ReorderBlocks` with `CopyBeam` for the combined layout, and `GatherBlocks` for
the split layout. The method `PickPastStateHost` sets up the block sizes and
allocates the fresh past tensor, as lines 46-53 and 137-143 do.

Class invariants:

- `Consistent` says there is one slot per layer in the combined layout and two
  per layer in the split layout, in both slot lists and both name lists. It
  also says every present slot has the current shape and the score type, and
  that every buffer matches its shape. All dimensions other than the sequence
  length are the constructor's.
- `Exclusive` says no two slots share a buffer. In particular, a reordered past
  never shares a buffer with a present tensor. So the copy never writes into
  the buffer it reads, even when indices repeat or are omitted.

## Model

| member | source | states |
|---|---|---|
| Tensors.ElementCount | src/models/kv_cache.cpp:48 | The element count of a shape, the `element_count` of the copy spans and the size `CreateTensor` allocates. It is zero exactly when some dimension is zero, and a one-dimensional shape counts its only dimension. |
| Tensors.CopyInstantiation | src/models/kv_cache.cpp:85-90 | The overload dispatches to the `float` instantiation exactly when the score type is float, and to the Float16 instantiation otherwise. |
| Tensors.Tensor.constructor | src/models/kv_cache.cpp:51-52 | A created tensor has the requested shape and element type and a fresh buffer whose length is the product of the shape's dimensions. |
| Reorder.BlockStartProduct | src/models/kv_cache.cpp:72-76 | The offset of block `j` is `j * block_size_per_beam`, the product the subspans use. |
| Reorder.BlockFits | src/models/kv_cache.cpp:72-76 | For an index below the slot count `n`, the block starting there ends within the `n` blocks of the buffer (in-bounds subspan). |
| Reorder.Gather | src/models/kv_cache.cpp:70-79 | Reference definition of the reorder: the concatenation of the named source blocks; it holds exactly one block per index. |
| Reorder.GatherBlock | src/models/kv_cache.cpp:70-79 | Block `j` of the gathered run is block `beamIndices[j]` of the source. |
| Reorder.GatherAt | src/models/kv_cache.cpp:72-77 | Element `k` of destination block `j` is element `k` of source block `beamIndices[j]`. |
| Reorder.GatherBlockElements | src/models/kv_cache.cpp:72-77 | Every position of destination block `j` holds the matching position of source block `beamIndices[j]`; both blocks are in bounds. |
| Reorder.DuplicatedSourceSameBlock | src/models/kv_cache.cpp:70-79 | Two destination slots that name the same source slot receive identical blocks (repeated indices). |
| Reorder.GatherIgnoresUnpicked | src/models/kv_cache.cpp:70-79 | Source blocks that no index names do not affect the result (omitted indices). |
| Reorder.GatherIotaPrefix | src/models/kv_cache.cpp:70-79 | Picking slots `0 .. m-1` in order copies the first `m` blocks unchanged. |
| Reorder.GatherIdentity | src/models/kv_cache.cpp:70-79 | The identity index list reproduces the source buffer exactly. |
| Reorder.ReorderExample | src/models/kv_cache.cpp:70-79 | Blocks `a b c` reordered by `[2, 2, 0]` give `c c a`. |
| Reorder.Copy | src/models/kv_cache.cpp:77-78 | `copy` of one subspan into another writes exactly the destination range with the source range and leaves the rest of the destination unchanged. |
| CombinedKvCache.BlockSizePerBeam | src/models/kv_cache.cpp:46 | `block_size_per_beam` is the element count of the trailing dimensions `{heads, sequence, hidden}` of the fused shape. |
| CombinedKvCache.PastKeySize | src/models/kv_cache.cpp:47 | `past_key_size` is the element count of the fused shape without its leading axis of 2, i.e. the size of one half. |
| CombinedKvCache.CombinedElementCount | src/models/kv_cache.cpp:46-48 | The fused tensor's element count is `2 * past_key_size`, where `past_key_size = shape[1] * block_size_per_beam`. |
| CombinedKvCache.KeyValueIsolation | src/models/kv_cache.cpp:72-76 | For slot indices below `shape[1]`, key subspans lie in `[0, K)` and value subspans lie in `[K, 2K)`, so the two halves never overlap. |
| CombinedKvCache.ReorderedKeyBlock | src/models/kv_cache.cpp:72-77 | In a reordered fused buffer, past key block `[j*B, j*B+B)` equals present key block `[b*B, b*B+B)`, where `b = beamIndices[j]`. |
| CombinedKvCache.ReorderedValueBlock | src/models/kv_cache.cpp:73-78 | In a reordered fused buffer, past value block `[K+j*B, K+j*B+B)` equals present value block `[K+b*B, K+b*B+B)`, where `b = beamIndices[j]`. |
| CombinedKvCache.CombinedFullReorder | src/models/kv_cache.cpp:70-79 | With one index per beam slot, the whole fused past is the gathered key half followed by the gathered value half. |
| CombinedKvCache.PickPastStateHost | src/models/kv_cache.cpp:44-83 | The result is a fresh tensor of the current shape and the instantiated element type. Its key half and value half are the reorders of the present's halves. |
| CombinedKvCache.ReorderBlocks | src/models/kv_cache.cpp:70-79 | After the copy loop, the first `|beamIndices|` key blocks and value blocks of the destination are the gathered key and value halves of the source. |
| CombinedKvCache.GatheredHalvesAt | src/models/kv_cache.cpp:72-76 | Destination block `j` of each gathered half holds source block `beamIndices[j]` of the same half. |
| CombinedKvCache.CopyBeam | src/models/kv_cache.cpp:71-78 | One iteration's two copies extend both the gathered key run and the gathered value run by one block. |
| CombinedKvCache.KvCacheCombined.ShapeAt | src/models/kv_cache.cpp:12-17 | The cache's shape is `{2, batch*beams, heads, length, hidden}`; only the sequence length varies. |
| CombinedKvCache.KvCacheCombined.constructor | src/models/kv_cache.cpp:6-28 | The placeholder past has sequence length 0. There is one present per layer at the prompt length, each with its own fresh buffer. The past slots are empty. There is one input name and one output name per layer. |
| CombinedKvCache.KvCacheCombined.PickPastState | src/models/kv_cache.cpp:85-90 | Past slot `index` becomes a fresh reorder of present slot `index`. Its element type is the dispatched instantiation. No other slot changes, and buffer exclusivity is kept. |
| CombinedKvCache.KvCacheCombined.Update | src/models/kv_cache.cpp:30-41 | With no indices, pasts are the previous presents. Otherwise each past is a fresh reorder at the previous shape. The shape's sequence dimension becomes `currentLength`, presents are fresh, and the slot counts and exclusivity are kept. |
| CombinedKvCache.KvCacheCombined.TakeOverPresents | src/models/kv_cache.cpp:31-33 | Every past slot holds exactly the previous present tensor, with no copy. |
| CombinedKvCache.KvCacheCombined.ReorderPasts | src/models/kv_cache.cpp:31-36 | Every past slot is a fresh reorder of its present slot at the current shape. |
| CombinedKvCache.KvCacheCombined.ReallocatePresents | src/models/kv_cache.cpp:38-40 | Shape index 3 becomes `currentLength`. Every present slot is a fresh tensor of the new shape, and the pasts are untouched. |
| SplitKvCache.BlockSizePerBeam | src/models/kv_cache.cpp:137 | `block_size_per_beam` is the element count of the trailing dimensions `{heads, sequence, hidden}` of the split shape. |
| SplitKvCache.SplitElementCount | src/models/kv_cache.cpp:137-138 | A split tensor holds `shape[0] * block_size_per_beam` elements. |
| SplitKvCache.SplitReorderedBlock | src/models/kv_cache.cpp:156-161 | Past block `[j*B, j*B+B)` equals present block `[b*B, b*B+B)`, where `b = beamIndices[j]`. This holds for key and value slots alike. |
| SplitKvCache.SplitFullReorder | src/models/kv_cache.cpp:156-161 | With one index per beam slot, the whole past is the gathered present. |
| SplitKvCache.PickPastStateHost | src/models/kv_cache.cpp:135-165 | The result is a fresh tensor of the current shape and the instantiated element type, whose leading blocks are the reorder of the present. |
| SplitKvCache.GatherBlocks | src/models/kv_cache.cpp:156-161 | After the copy loop, the first `|beamIndices|` blocks of the destination are the gathered source. |
| SplitKvCache.KvCache.ShapeAt | src/models/kv_cache.cpp:98-103 | The cache's shape is `{batch*beams, heads, length, hidden}`; only the sequence length varies. |
| SplitKvCache.KvCache.constructor | src/models/kv_cache.cpp:92-119 | The placeholder past has sequence length 0. There are two presents per layer, each with its own fresh buffer. There are `2*layer_count` empty past slots. The names are key before value per layer, for inputs and for outputs. |
| SplitKvCache.KvCache.PickPastState | src/models/kv_cache.cpp:167-172 | Past slot `index` becomes a fresh reorder of present slot `index`. Its element type is the dispatched instantiation. No other slot changes, and buffer exclusivity is kept. |
| SplitKvCache.KvCache.Update | src/models/kv_cache.cpp:121-132 | Same as the combined Update over `2*layer_count` slots, with the sequence dimension at index 2. |
| SplitKvCache.KvCache.TakeOverPresents | src/models/kv_cache.cpp:122-124 | All `2*layer_count` past slots hold exactly the previous present tensors. |
| SplitKvCache.KvCache.ReorderPasts | src/models/kv_cache.cpp:122-127 | Every past slot is a fresh reorder of its present slot at the current shape. |
| SplitKvCache.KvCache.ReallocatePresents | src/models/kv_cache.cpp:129-131 | Shape index 2 becomes `currentLength`. Every present slot is a fresh tensor of the new shape, and the pasts are untouched. |

## Left out

- The CUDA branch (lines 55-67 and 145-153) is left out. It issues asynchronous device copies on a stream, and its correctness rests on stream ordering. The `isCuda` flag is recorded, but the host copy is always the one modelled.
- The ONNX Runtime allocator and `OrtValue` are foreign. Creating a tensor is the `Tensor` constructor, which yields a fresh buffer. The device query becomes the `deviceIsGpu` constructor parameter. The CUDA stream is not modelled.
- Element values are opaque (`T`). Float and Float16 arithmetic plays no role in a copy, and the score type is only a tag that chooses the instantiation. Any tag other than float dispatches to the Float16 instantiation, as in the source.
- The name strings are produced by `snprintf` from format constants in `kv_cache.h`, which is not part of this model. A name is a `Binding(role, layer)` value; the model keeps the names' count, order and layer number, but not their text.
- The `empty_past_` placeholder is created with sequence length 0, but it is used by the caller, which is not part of this model.
- TakeOverPresents: after `std::move`, the present slot is empty in the source. In the model it still refers to the moved tensor until `ReallocatePresents` replaces it, so between the two loops only the past buffers are stated to be distinct.
- Past blocks beyond `|beamIndices|` are uninitialised memory in the source, and the model states nothing about them.
- Integer widths are not modelled: the 64-bit shape dimensions, the 32-bit beam indices and the `int` layer count are unbounded here. The index-list bounds (`0 <= beamIndices[j] < batch*beams` and `|beamIndices| <= batch*beams`) are preconditions, as the subspans require. A `currentLength` is a natural number.
- PickPastState (both classes, and so Update): for a score type other than float and Float16, the source still takes the Float16 instantiation. It views the present buffer, created with the score type, as `element_count` Float16 units and copies Float16-sized blocks, which is not an element-wise reorder when the element is not 2 bytes wide. The model's elements have no width, so its reorder contract describes an element copy and does not describe that case.
