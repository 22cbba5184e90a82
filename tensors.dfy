/** Tensors as the key/value cache sees them: a shape, an element-type tag and a
    contiguous buffer of elements. The allocator's CreateTensor is the Tensor
    constructor; every element is opaque, so the buffer is an `array<T>`. */
module Tensors {

  /** The element-type tag a tensor is created with. Only the first two are
      supported by the cache; every other tag is `OtherElementType`. */
  datatype ElementType = Float | Float16 | OtherElementType

  /** Number of elements of a tensor with the given shape: the product of its
      dimensions (the empty shape is a scalar). It is zero exactly when some
      dimension is zero, as for a tensor at sequence length 0. */
  function ElementCount(shape: seq<nat>): (r: nat)
    ensures r == 0 <==> exists i :: 0 <= i < |shape| && shape[i] == 0
    ensures |shape| == 1 ==> r == shape[0]
  {
    if shape == [] then 1 else shape[0] * ElementCount(shape[1..])
  }

  /** The product of three trailing dimensions, the block one beam slot owns. */
  lemma {:induction false} ElementCountOfThree(dims: seq<nat>)
    requires |dims| == 3
    ensures ElementCount(dims) == dims[0] * dims[1] * dims[2]
  {
    assert dims[1..][1..][1..] == [];
    assert ElementCount(dims[1..]) == dims[1] * dims[2];
    assert dims[0] * (dims[1] * dims[2]) == dims[0] * dims[1] * dims[2];
  }

  /** The instantiation the type-dispatching PickPastState overloads call: the
      `float` one when the tag is Float, the `Float16_t` one for every other tag. */
  function CopyInstantiation(scoreType: ElementType): (r: ElementType)
    ensures r == Float || r == Float16
    ensures r == Float <==> scoreType == Float
  {
    if scoreType == Float then Float else Float16
  }

  /** A tensor. Shape, element type and buffer are fixed at creation; only the
      buffer's elements can change. */
  class Tensor<T(0)> {
    const shape: seq<nat>
    const elementType: ElementType
    const data: array<T>

    /** The buffer holds exactly one element per position of the shape. */
    predicate Valid()
    {
      data.Length == ElementCount(shape)
    }

    /** CreateTensor: a fresh, uninitialised buffer sized for `shape`. */
    constructor (shape: seq<nat>, elementType: ElementType)
      ensures Valid()
      ensures this.shape == shape && this.elementType == elementType
      ensures fresh(data)
    {
      this.shape := shape;
      this.elementType := elementType;
      data := new T[ElementCount(shape)];
    }
  }
}

/** The names under which the executor binds each cache slot. Their text comes
    from format constants outside this model; a name is identified here by its
    role and its layer. */
module Bindings {

  datatype Role =
    | Past | Present                  // fused key+value slot of one layer
    | PastKey | PastValue             // split layout, inputs
    | PresentKey | PresentValue       // split layout, outputs

  datatype Binding = Binding(role: Role, layer: nat)
}
