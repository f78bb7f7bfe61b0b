/**
 * The untyped base of the engine's dynamic array: its size, capacity and
 * buffer address, and the constant-time swap of two arrays.
 */
module VectorBases {
  /** A buffer address; 0 stands for the null address. */
  type Address = nat

  const NULL: Address := 0

  /** The three fields of an array, as one value. */
  datatype VectorState = VectorState(size: int, capacity: int, buffer: Address)

  class VectorBase {
    var size: int
    var capacity: int
    var buffer: Address

    function State(): VectorState
      reads this
    {
      VectorState(size, capacity, buffer)
    }

    /** Construction gives an empty array without storage. */
    constructor ()
      ensures size == 0 && capacity == 0 && buffer == NULL
    {
      size, capacity, buffer := 0, 0, NULL;
    }

    /** Exchange size, capacity and buffer with `rhs` (nothing when `rhs` is this array). */
    method Swap(rhs: VectorBase)
      modifies this, rhs
      ensures State() == old(rhs.State()) && rhs.State() == old(State())
    {
      size, rhs.size := rhs.size, size;
      capacity, rhs.capacity := rhs.capacity, capacity;
      buffer, rhs.buffer := rhs.buffer, buffer;
    }
  }

  /**
   * A usage property, not an engine routine: swapping twice restores both
   * arrays, and no other array is touched.
   */
  method SwapTwiceRestores(a: VectorBase, b: VectorBase, other: VectorBase)
    requires other != a && other != b
    modifies a, b
    ensures a.State() == old(a.State()) && b.State() == old(b.State())
    ensures other.State() == old(other.State())
  {
    a.Swap(b);
    a.Swap(b);
  }
}
