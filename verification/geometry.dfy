/** Derived constants of a row-wise reduction: element types, vector
    width, thread count, and the immutable reduction descriptor. */
module Geometry {

  /** Bits moved by one vectorized copy. */
  const CopyBits: nat := 128
  /** Threads per warp. */
  const WarpSize: nat := 32
  /** Width of one memory-barrier word (a 64-bit integer). */
  const BarrierBits: nat := 64
  /** Largest row length served by 128 threads; longer rows get 256. */
  const SmallRowLimit: nat := 16384
  /** Cluster size chosen when a kernel does not override it. */
  const DefaultClusterN: nat := 1

  /** The element types a reduction accepts, each carrying its bit width. */
  datatype DType = Float16 | BFloat16 | Float32 {
    function Width(): (w: nat)
      ensures w % 8 == 0 && w > 0
      ensures CopyBits % w == 0
    {
      match this
      case Float16 => 16
      case BFloat16 => 16
      case Float32 => 32
    }
  }

  /** Accumulator type used when the kernel does not name one. */
  const DefaultReductionDtype: DType := Float32

  /** The state of one reduction kernel: element type, row length, number of
      pipeline stages, accumulator type, and the number of blocks that
      cooperate on a row. */
  datatype Reduction = Reduction(
    dtype: DType,
    n: nat,
    stage: nat,
    reductionDtype: DType,
    clusterN: nat)

  /** A freshly constructed reduction: the accumulator type and the
      cluster size take their defaults. */
  function NewReduction(dtype: DType, n: nat, stage: nat): Reduction {
    Reduction(dtype, n, stage, DefaultReductionDtype, DefaultClusterN)
  }

  /** Number of elements one 128-bit copy moves. */
  function VecSize(d: DType): (v: nat)
    ensures v * d.Width() == CopyBits
    ensures d.Width() == 16 ==> v == 8
    ensures d.Width() == 32 ==> v == 4
  {
    CopyBits / d.Width()
  }

  /** Threads per block: short rows use 128 threads, long rows 256. */
  function NumThreads(n: nat): (t: nat)
    ensures t == 128 || t == 256
    ensures t == 128 <==> n <= SmallRowLimit
    ensures t % WarpSize == 0
  {
    if n <= SmallRowLimit then 128 else 256
  }
}
