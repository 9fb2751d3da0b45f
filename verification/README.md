# Reduction geometry planner — a Dafny model

This project models `ReductionBase` of quack, the planner that fixes the
execution geometry of a row-wise reduction kernel (softmax, layer-norm
statistics, ...). For a row of `N` elements it decides the vector width
(`128 / element bits`), the thread count (128 or 256), how many tile rows a
block handles (`cols_per_block`), how many block-chunks cover a row
(`num_blocks_N`), the thread-value (TV) layout that maps each
(thread, vector slot, block-chunk) to a tile offset, the shared-memory
budget, the shape and order of the reduction buffer, the barrier words a
cluster allocates, and the barrier-initialisation operations each thread
issues.

Everything is pure integer arithmetic over `nat`:

- `wrappers.dfy` — `Option` and `Result`.
- `arith.dfy` — ceiling division as the layout library computes it,
  uniqueness of Euclidean division, and mixed-radix digit lemmas.
- `geometry.dfy` — element types (`Float16`, `BFloat16`, `Float32` with
  their bit widths), the constants (128-bit copies, 32-thread warps, 64-bit
  barrier words, the 16384-element threshold, default cluster size 1), the
  `Reduction` descriptor, `VecSize` and `NumThreads`.
- `tv_layout.dfy` — `GetTvLayout` returning the tile shape and the nested
  (shape, stride) layout, or a configuration error; the offset function,
  its decoding, and the bijection onto the tile.
- `smem_sizing.dfy` — the shared-memory formula and its monotonicity.
- `reduction_buffer.dfy` — the reduction-buffer shape
  `(num_warps / warps_per_row, (warps_per_row, cluster_n), stage)` laid out
  with order `(1, 0, 2)`, and the allocation request (buffer plus
  `stage` barrier words when `cluster_n > 1`).
- `cluster_init.dfy` — the barrier operations a thread issues
  (`InitArrive`, `Fence`, `TxBytes`, `ClusterArrive`) and a per-thread
  phase machine that accepts exactly that sequence.
- `worked_examples.dfy` — the 512-element half-precision example, the
  thread-count threshold, a rejected row length and the single-block case.

The abstract `_calculate_threads_per_row` and the overridable
`_set_cluster_n` are inputs: every planning function takes
`threadsPerRow`, and `cluster_n` is a field of the `Reduction` descriptor
(default `DefaultClusterN == 1`). The accumulator type defaults to
32-bit float (`DefaultReductionDtype`); `NewReduction` builds a descriptor
with both defaults, as the constructor and `_set_cluster_n` do.

Points where the code is easy to misread:

- The ceiling at `quack/reduction_base.py:45` bounds one tile row times the
  cluster: `vec * num_blocks_N * threads_per_row * cluster_n` lies in
  `[N, N + vec * threads_per_row * cluster_n)`, and `num_blocks_N` is the
  least count that reaches `N`. The tile as a whole holds `cols_per_block`
  such rows.
- `warps_per_row` reads `tv_layout.shape[0][0]`, which for the layout built
  at `quack/reduction_base.py:65` is `cols_per_block`, not
  `threads_per_row`; `ReductionBuffer.WarpsPerRow` reads the same extent.
  For every planned layout whose rows divide the block
  (`PlannedBufferSize`), this value still divides the warp count, so the
  buffer has exactly `num_warps * cluster_n * stage` slots.
- The TV offset function is a bijection onto the tile whether or not
  `threads_per_row` divides the thread count (`TvLayoutBijective` needs no
  such premise). Divisibility is what makes the thread mode span every
  thread of the block (`ThreadModeCoversBlock`), and the lemmas about
  thread ids assume it.
- The alignment check at `quack/reduction_base.py:42` can never fail,
  because both thread counts are multiples of 32 (`NumThreads` ensures
  it). `GetTvLayout` keeps the branch and its contract shows it is dead:
  a failure is always a `DivisibilityViolation`.

## Model

| member | source | states |
|---|---|---|
| Geometry.VecSize | quack/reduction_base.py:38-39 | a 128-bit copy holds exactly `vec` elements (`vec * width == 128`): 8 for 16-bit types, 4 for 32-bit |
| Geometry.NumThreads | quack/reduction_base.py:34-35 | the thread count is 128 or 256, it is 128 exactly when `N <= 16384`, and it is a multiple of the warp size |
| Arith.CeilDiv | quack/reduction_base.py:45 | `ceil_div(a, b)` is the least `q` with `q * b >= a`: `a <= q * b < a + b` |
| TvLayout.GetTvLayout | quack/reduction_base.py:37-71 | planning fails exactly when `N % vec != 0`, and then with `DivisibilityViolation(N, vec)`; on success the thread mode is `(cols_per_block, threads_per_row)` with `cols_per_block` the floor of `num_threads / threads_per_row`, and the tile width is the value-mode size times `threads_per_row` |
| TvLayout.RowCoverTight | quack/reduction_base.py:44-63 | the cluster's blocks cover the row with less than one chunk of slack: `N <= cols * cluster_n < N + vec * threads_per_row * cluster_n` |
| TvLayout.NumBlocksNLeast | quack/reduction_base.py:45 | `num_blocks_N` is the least block-chunk count `nb` with `vec * threads_per_row * nb * cluster_n >= N` |
| TvLayout.TilerMonotoneInN | quack/reduction_base.py:35-63 | for fixed `threads_per_row` and cluster size, a longer row never plans fewer tile rows or columns |
| TvLayout.OffsetMixedRadix | quack/reduction_base.py:64-70 | with the planned strides, `offset(t0, t1, v0, v1)` is the mixed-radix numeral with digits t0, v0, t1, v1 and radices `cols_per_block`, `vec`, `threads_per_row` |
| TvLayout.DecodeOffset | quack/reduction_base.py:64-70 | every in-domain coordinate maps inside the tile and is recovered from its offset |
| TvLayout.OffsetDecode | quack/reduction_base.py:64-70 | every tile offset is the image of an in-domain coordinate |
| TvLayout.TvLayoutBijective | quack/reduction_base.py:63-70 | the TV layout maps its domain into `[0, rows * cols)` of the tile, injectively and onto |
| TvLayout.ThreadModeCoversBlock | quack/reduction_base.py:46-65 | the thread mode spans exactly `num_threads` threads if and only if `threads_per_row` divides `num_threads` |
| TvLayout.ThreadOwnsRow | quack/reduction_base.py:58-70 | thread `tid` owns tile row `tid % cols_per_block`, and its values sit at column `v0 + vec * (tid / cols_per_block + threads_per_row * v1)` |
| SmemSizing.SmemSizeInBytes | quack/reduction_base.py:73-78 | the shared-memory size is at least the tile bytes plus 8 bytes per stage |
| SmemSizing.SmemStrictlyIncreasingInStage | quack/reduction_base.py:73-78 | raising the stage count by `d` adds at least `8 * d` bytes |
| SmemSizing.SmemMonotoneInWarps | quack/reduction_base.py:76 | the size is non-decreasing in the warp count |
| SmemSizing.SmemMonotoneInClusterN | quack/reduction_base.py:76 | the size is non-decreasing in the cluster size |
| SmemSizing.TileBytesMonotone | quack/reduction_base.py:75 | a tile no smaller in either extent needs no fewer bytes |
| SmemSizing.TileBytesMonotoneInN | quack/reduction_base.py:35-75 | for fixed `threads_per_row` and cluster size, a longer row never plans a tile with fewer bytes |
| ReductionBuffer.GetReductionBufferLayout | quack/reduction_base.py:80-86 | warps per row is `max(shape[0][0] / 32, 1)`, pinned by `w * 32 <= max(shape[0][0], 32) < (w + 1) * 32`; the group count is the floor of `num_warps / warps_per_row`; cluster size and stage count are carried through |
| ReductionBuffer.BufferStridesOrdered | quack/reduction_base.py:83-86 | under order `(1, 0, 2)` the warp axis has stride 1, the cluster axis stride `warps_per_row`, warp groups come next and the stage axis is slowest |
| ReductionBuffer.SlotOffsetMixedRadix | quack/reduction_base.py:83-86 | a slot's offset is the mixed-radix numeral warp, rank, group, stage |
| ReductionBuffer.SlotWithinStage | quack/reduction_base.py:83-86 | a slot of stage `s` lies in `[s * span, (s + 1) * span)`, and that range lies inside the buffer |
| ReductionBuffer.SlotDigits | quack/reduction_base.py:83-86 | each coordinate of an in-buffer slot is read back from its offset |
| ReductionBuffer.BufferSlotsDisjoint | quack/reduction_base.py:83-86 | each stage occupies its own contiguous range `[s * span, (s + 1) * span)` inside the buffer, and distinct slots never share an offset |
| ReductionBuffer.BufferSizeWhenDivisible | quack/reduction_base.py:81-84 | when `warps_per_row` divides `num_warps`, the buffer has `num_warps * cluster_n * stage` slots |
| ReductionBuffer.WarpGroupsDivide | quack/reduction_base.py:81-82 | with 128 or 256 threads split into whole rows, `max(cols_per_block / 32, 1)` divides the warp count |
| ReductionBuffer.PlannedBufferSize | quack/reduction_base.py:81-84 | for a planned layout whose rows divide the block, `num_warps * 32 == num_threads`, warps per row divides `num_warps`, and the buffer has `num_warps * cluster_n * stage` slots |
| ReductionBuffer.AllocateReductionBufferAndMbar | quack/reduction_base.py:88-100 | the buffer has the reduction-buffer shape and accumulator type; a barrier array is requested if and only if `cluster_n > 1`, and then it has exactly `stage` words |
| ReductionBuffer.SmemCoversAllocation | quack/reduction_base.py:73-100 | the sizing formula equals tile bytes plus the allocated buffer's bytes plus 8 bytes per stage, which is exactly the barrier array's bytes when `cluster_n > 1` |
| ClusterInit.InitializeCluster | quack/reduction_base.py:102-113 | a single block issues nothing; in a cluster, owners (`tidx < stage`) issue four operations and others two, the last is the cluster arrive, the fence is first for non-owners and second for owners, an owner arms barrier `tidx` with count 1 before the fence and sets `num_warps * cluster_n * width / 8` expected bytes on it right after, no other barrier is touched, and no arm follows the fence; `InitTraceIsTheProtocol` pins the whole order |
| ClusterInit.RunCompletesOnlyRemaining | quack/reduction_base.py:104-113 | from any reachable setup phase exactly one operation sequence completes the setup |
| ClusterInit.InitTraceIsTheProtocol | quack/reduction_base.py:104-113 | in a cluster, a sequence takes a thread through arm, fence, set bytes and arrive if and only if it is the sequence that thread issues |
| ClusterInit.BarriersWithinAllocation | quack/reduction_base.py:96-110 | every barrier index a thread touches is inside the barrier array the block allocated |
| ClusterInit.TxBytesIsOneStage | quack/reduction_base.py:108-111 | the expected transaction bytes equal one stage of reduction scratch in the sizing formula and one stage of the planned reduction buffer |
| WorkedExamples.HalfPrecisionRow512 | quack/reduction_base.py:48-70 | N = 512, 16-bit, 32 threads per row, cluster 1 gives tile `(4, 512)`, shape `((4, 32), (8, 2))`, stride `((1, 32), (4, 1024))`, and thread `tid` owns row `tid % 4` |
| WorkedExamples.ThreadCountThreshold | quack/reduction_base.py:35 | 16384 elements use 128 threads; 16385 and 20000 use 256 |
| WorkedExamples.RowNotMultipleOfVector | quack/reduction_base.py:38-40 | 510 half-precision elements fail with `DivisibilityViolation(510, 8)` |
| WorkedExamples.FreshReductionIsSingleBlock | quack/reduction_base.py:20-32 | a freshly constructed reduction accumulates in 32-bit floats on one block, so it allocates no barrier array and issues no barrier operation |
| WorkedExamples.SingleBlockNoBarriers | quack/reduction_base.py:96-113 | with the default cluster size no barrier array is allocated and no thread issues a barrier operation |

## Left out

- The torch-to-cute dtype map (`quack/reduction_base.py:12-16`): a lookup over foreign tensor-library types; element types are the enum `DType` with their bit widths.
- `_calculate_threads_per_row` and `_set_cluster_n` (`quack/reduction_base.py:28-32`): defined by kernels outside this file; both values are inputs.
- TvLayout.GetTvLayout: requires `threads_per_row > 0` and `cluster_n > 0`; the source has no error path for these and would divide by zero in `ceil_div`.
- SmemSizing.SmemSizeInBytes: its own contract is only a lower bound; the exact accounting of the formula against the allocation is stated by `SmemCoversAllocation`, and its growth by the monotonicity lemmas.
- SmemSizing.TileBytesMonotoneInN: monotonicity in `N` is stated for the tile term with a fixed warp count; the caller's warp count is an input of the sizing formula.
- The layout library's `make_layout`, `make_ordered_layout`, `size_in_bytes`, `size` and `max_constexpr`: replaced by the integer formulas they compute on these shapes (compact tile, so its size in bytes is `rows * cols * width / 8`; `make_ordered_layout` only for the three-mode shape used here).
- The shared-memory allocator: addresses, the 4-byte alignment and capacity checks are allocator behaviour; the model keeps the requested shape, element type and barrier-word count.
- Hardware semantics of barriers, fences and the cluster arrive (arrival counting, transaction accounting, memory visibility): concurrency outside this planner; the model keeps only each thread's operation order and arguments.
- ClusterInit.InitializeCluster: the thread index is a natural number; negative 32-bit values are not modelled.
- JIT compilation and compile-time specialisation (`@cute.jit`, `const_expr`): modelled as ordinary conditionals.
