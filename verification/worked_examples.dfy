/** Concrete configurations worked through the model: the 512-element
    half-precision row, the thread-count threshold, a row length that is
    not a multiple of the vector width, and a single-block reduction. */
module WorkedExamples {
  import opened Wrappers
  import opened Geometry
  import opened TvLayout
  import opened ReductionBuffer
  import opened ClusterInit

  /** N = 512 in 16-bit elements with 32 threads per row: four rows per
      block, two block-chunks, a 4 x 512 tile, and thread `tid` in row
      `tid % 4`. */
  lemma HalfPrecisionRow512(stage: nat, reductionDtype: DType)
    ensures var cfg := Reduction(Float16, 512, stage, reductionDtype, 1);
      && GetTvLayout(cfg, 32)
         == Success(Plan((4, 512), Layout((4, 32), (1, 32), (8, 2), (4, 1024))))
      && forall tid: nat, vid: nat :: tid < 128 && vid < 16 ==>
           TileRow(GetTvLayout(cfg, 32).value, Offset(GetTvLayout(cfg, 32).value.tv,
             CoordOf(GetTvLayout(cfg, 32).value.tv, tid, vid))) == tid % 4
  {
    var cfg := Reduction(Float16, 512, stage, reductionDtype, 1);
    assert NumThreads(512) == 128;
    forall tid: nat, vid: nat | tid < 128 && vid < 16
      ensures TileRow(GetTvLayout(cfg, 32).value, Offset(GetTvLayout(cfg, 32).value.tv,
                CoordOf(GetTvLayout(cfg, 32).value.tv, tid, vid))) == tid % 4
    {
      ThreadOwnsRow(cfg, 32, tid, vid);
    }
  }

  /** 128 threads up to 16384 elements, 256 beyond. */
  lemma ThreadCountThreshold()
    ensures NumThreads(16384) == 128
    ensures NumThreads(16385) == 256
    ensures NumThreads(20000) == 256
  {
  }

  /** 510 half-precision elements are not a whole number of 8-wide
      vectors, so no layout is planned. */
  lemma RowNotMultipleOfVector(stage: nat, reductionDtype: DType, clusterN: nat, threadsPerRow: nat)
    requires threadsPerRow > 0 && clusterN > 0
    ensures GetTvLayout(Reduction(Float16, 510, stage, reductionDtype, clusterN), threadsPerRow)
         == Failure(DivisibilityViolation(510, 8))
  {
  }

  /** A freshly constructed reduction accumulates in 32-bit floats on a
      single block, so it neither allocates nor arms any barrier. */
  lemma FreshReductionIsSingleBlock(dtype: DType, n: nat, stage: nat, tv: Layout, tidx: nat, numWarps: nat)
    ensures NewReduction(dtype, n, stage).reductionDtype.Width() == 32
    ensures AllocateReductionBufferAndMbar(NewReduction(dtype, n, stage), tv).barrierWords == None
    ensures InitializeCluster(NewReduction(dtype, n, stage), tidx, numWarps) == []
  {
  }

  /** A single-block reduction allocates no barrier and issues no barrier
      operation on any thread. */
  lemma SingleBlockNoBarriers(cfg: Reduction, tv: Layout, tidx: nat, numWarps: nat)
    requires cfg.clusterN == DefaultClusterN
    ensures AllocateReductionBufferAndMbar(cfg, tv).barrierWords == None
    ensures InitializeCluster(cfg, tidx, numWarps) == []
  {
  }
}
