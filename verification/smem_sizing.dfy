/** Shared-memory sizing: bytes a block needs for its tile, the
    reduction scratch of every stage, and one barrier word per stage. */
module SmemSizing {
  import opened Arith
  import opened Geometry
  import opened TvLayout

  /** Bytes of a compact tile of `rows * cols` elements of type `d`. */
  function TileBytes(d: DType, tiler: (nat, nat)): nat {
    tiler.0 * tiler.1 * d.Width() / 8
  }

  /** Reduction scratch of one stage: one accumulator per warp and per
      cluster member. */
  function StageScratchBytes(cfg: Reduction, numWarps: nat): nat {
    numWarps * cfg.clusterN * (cfg.reductionDtype.Width() / 8)
  }

  /** Reduction scratch of all stages, as the sizing formula writes it. */
  function ScratchBytes(cfg: Reduction, numWarps: nat): nat {
    cfg.stage * numWarps * cfg.clusterN * (cfg.reductionDtype.Width() / 8)
  }

  /** Total shared memory of a block: the tile, `stage` copies of the
      reduction scratch and `stage` 8-byte barrier words. */
  function SmemSizeInBytes(cfg: Reduction, tiler: (nat, nat), numWarps: nat): (bytes: nat)
    ensures bytes >= TileBytes(cfg.dtype, tiler) + cfg.stage * (BarrierBits / 8)
  {
    TileBytes(cfg.dtype, tiler) + ScratchBytes(cfg, numWarps) + cfg.stage * (BarrierBits / 8)
  }

  /** The formula splits into the tile, `stage` equal scratch slices and
      `stage` barrier words. */
  lemma SmemDecomposed(cfg: Reduction, tiler: (nat, nat), numWarps: nat)
    ensures SmemSizeInBytes(cfg, tiler, numWarps)
         == TileBytes(cfg.dtype, tiler) + cfg.stage * StageScratchBytes(cfg, numWarps) + cfg.stage * 8
  {
    var rb := cfg.reductionDtype.Width() / 8;
    assert cfg.stage * numWarps * cfg.clusterN * rb == cfg.stage * (numWarps * cfg.clusterN * rb);
  }

  /** Each extra stage adds at least the 8 bytes of its barrier word, so
      the size is strictly increasing in the stage count. */
  lemma SmemStrictlyIncreasingInStage(cfg: Reduction, tiler: (nat, nat), numWarps: nat, stage2: nat)
    requires cfg.stage < stage2
    ensures SmemSizeInBytes(cfg, tiler, numWarps) + 8 * (stage2 - cfg.stage)
            <= SmemSizeInBytes(cfg.(stage := stage2), tiler, numWarps)
  {
    var cfg2 := cfg.(stage := stage2);
    var per := StageScratchBytes(cfg, numWarps);
    assert StageScratchBytes(cfg2, numWarps) == per;
    SmemDecomposed(cfg, tiler, numWarps);
    SmemDecomposed(cfg2, tiler, numWarps);
    MulMonoRight(per, cfg.stage, stage2);
    assert cfg.stage * per <= stage2 * per;
  }

  /** More warps never need less shared memory. */
  lemma SmemMonotoneInWarps(cfg: Reduction, tiler: (nat, nat), numWarps: nat, numWarps2: nat)
    requires numWarps <= numWarps2
    ensures SmemSizeInBytes(cfg, tiler, numWarps) <= SmemSizeInBytes(cfg, tiler, numWarps2)
  {
    var w := cfg.clusterN * (cfg.reductionDtype.Width() / 8);
    var per, per2 := StageScratchBytes(cfg, numWarps), StageScratchBytes(cfg, numWarps2);
    assert per == numWarps * w && per2 == numWarps2 * w;
    MulMonoRight(w, numWarps, numWarps2);
    MulMonoRight(cfg.stage, per, per2);
    SmemDecomposed(cfg, tiler, numWarps);
    SmemDecomposed(cfg, tiler, numWarps2);
  }

  /** A larger cluster never needs less shared memory. */
  lemma SmemMonotoneInClusterN(cfg: Reduction, tiler: (nat, nat), numWarps: nat, clusterN2: nat)
    requires cfg.clusterN <= clusterN2
    ensures SmemSizeInBytes(cfg, tiler, numWarps)
            <= SmemSizeInBytes(cfg.(clusterN := clusterN2), tiler, numWarps)
  {
    var cfg2 := cfg.(clusterN := clusterN2);
    var rb := cfg.reductionDtype.Width() / 8;
    var per, per2 := StageScratchBytes(cfg, numWarps), StageScratchBytes(cfg2, numWarps);
    assert per == numWarps * cfg.clusterN * rb && per2 == numWarps * clusterN2 * rb;
    MulMonoRight(numWarps, cfg.clusterN, clusterN2);
    MulMonoRight(rb, numWarps * cfg.clusterN, numWarps * clusterN2);
    assert per <= per2;
    MulMonoRight(cfg.stage, per, per2);
    SmemDecomposed(cfg, tiler, numWarps);
    SmemDecomposed(cfg2, tiler, numWarps);
  }

  /** A tile with no fewer rows and columns never needs fewer bytes. */
  lemma TileBytesMonotone(d: DType, tiler: (nat, nat), tiler2: (nat, nat))
    requires tiler.0 <= tiler2.0 && tiler.1 <= tiler2.1
    ensures TileBytes(d, tiler) <= TileBytes(d, tiler2)
  {
    MulMonoRight(tiler.0, tiler.1, tiler2.1);
    MulMonoRight(tiler2.1, tiler.0, tiler2.0);
    MulMonoRight(d.Width(), tiler.0 * tiler.1, tiler2.0 * tiler2.1);
    DivMonotone(tiler.0 * tiler.1 * d.Width(), tiler2.0 * tiler2.1 * d.Width(), 8);
  }

  /** A longer row never yields a smaller planned tile, so the tile term
      of the shared-memory size is non-decreasing in the row length. */
  lemma TileBytesMonotoneInN(cfg: Reduction, threadsPerRow: nat, n2: nat)
    requires threadsPerRow > 0 && cfg.clusterN > 0 && cfg.n <= n2
    requires GetTvLayout(cfg, threadsPerRow).Success?
    requires GetTvLayout(cfg.(n := n2), threadsPerRow).Success?
    ensures TileBytes(cfg.dtype, GetTvLayout(cfg, threadsPerRow).value.tiler)
            <= TileBytes(cfg.dtype, GetTvLayout(cfg.(n := n2), threadsPerRow).value.tiler)
  {
    TilerMonotoneInN(cfg, threadsPerRow, n2);
    TileBytesMonotone(cfg.dtype, GetTvLayout(cfg, threadsPerRow).value.tiler,
      GetTvLayout(cfg.(n := n2), threadsPerRow).value.tiler);
  }
}
