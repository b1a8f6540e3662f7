/** Tensor descriptors as the validation layer sees them: a device context,
    a contiguity flag and a shape, or the null array that stands for an
    operand the caller did not provide. */
module Tensor {

  const TWO_TO_63: int := 0x8000_0000_0000_0000
  const TWO_TO_64: int := 0x1_0000_0000_0000_0000

  /** A graph-derived count (vertex or edge count): an unsigned 64-bit value. */
  type u64 = x: int | 0 <= x < TWO_TO_64

  /** A tensor dimension size: a signed 64-bit value, as in a DLPack shape. */
  type i64 = x: int | -TWO_TO_63 <= x < TWO_TO_63

  /** A device context: the device type and the device id. Two contexts are
      the same device when both parts agree. */
  datatype Context = Context(deviceType: int, deviceId: int)

  /** The context a null array is created on: the CPU (device type 1), device 0. */
  const NullArrayContext: Context := Context(1, 0)

  /** A tensor descriptor. `Null` is the "not provided" sentinel; it still has
      a context, which callers may read. The rank (ndim) of a tensor is the
      length of its shape. Contiguity is derived from strides in the tensor
      library, which is not part of this model, so it is carried as a flag. */
  datatype Desc =
    | Null(ctx: Context)
    | Tensor(ctx: Context, contiguous: bool, shape: seq<i64>)

  /** The null array returned when there is nothing to return. */
  function NullArray(): Desc
  {
    Null(NullArrayContext)
  }

  /** The value an int64 takes when it is converted to uint64 for a mixed
      comparison: negative values wrap around modulo 2^64. */
  function AsUnsigned(x: i64): (r: u64)
    ensures x >= 0 ==> r == x
    ensures x < 0 ==> r >= TWO_TO_63 && r - TWO_TO_64 == x
  {
    if x < 0 then x + TWO_TO_64 else x
  }

  /** Equality of a uint64 count with an int64 dimension, compared after the
      usual arithmetic conversion of the signed operand to unsigned. */
  predicate SameSize(count: u64, dim: i64)
  {
    count == AsUnsigned(dim)
  }

  /** A non-negative dimension matches a count exactly when the two are equal;
      a negative dimension can only match a count of 2^63 or more. */
  lemma SameSizeMeaning(count: u64, dim: i64)
    ensures dim >= 0 ==> (SameSize(count, dim) <==> count == dim)
    ensures dim < 0 && count < TWO_TO_63 ==> !SameSize(count, dim)
    ensures dim < 0 ==> (SameSize(count, dim) <==> count == dim + TWO_TO_64)
  {
  }
}
