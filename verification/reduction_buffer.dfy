/** The shared-memory reduction buffer: its ordered layout, its size,
    and the barrier words allocated next to it. */
module ReductionBuffer {
  import opened Wrappers
  import opened Arith
  import opened Geometry
  import opened TvLayout
  import opened SmemSizing

  /** Shape `(groups, (warpsPerRow, clusterN), stage)`: warp groups, warps
      within a group, cluster members, pipeline stages. */
  datatype BufferShape = BufferShape(groups: nat, warpsPerRow: nat, clusterN: nat, stage: nat)

  /** A slot of the buffer: one coordinate per axis. */
  datatype Slot = Slot(group: nat, warp: nat, rank: nat, stage: nat)

  /** The ordering the buffer is built with: mode 1 fastest, then mode 0,
      then mode 2. */
  const BufferOrder: (nat, nat, nat) := (1, 0, 2)

  /** Strides of the three top-level modes, plus the stride of the inner
      `clusterN` axis of mode 1. */
  datatype BufferStrides = BufferStrides(group: nat, warp: nat, rank: nat, stage: nat)

  function ModeSize(b: BufferShape, i: nat): nat
    requires i < 3
  {
    if i == 0 then b.groups else if i == 1 then b.warpsPerRow * b.clusterN else b.stage
  }

  function OrderOf(order: (nat, nat, nat), i: nat): nat
    requires i < 3
  {
    if i == 0 then order.0 else if i == 1 then order.1 else order.2
  }

  /** Compact stride of mode `i` under `order`: the product of the sizes of
      the modes ranked before it. */
  function ModeStride(b: BufferShape, order: (nat, nat, nat), i: nat): nat
    requires i < 3
  {
    (if OrderOf(order, 0) < OrderOf(order, i) then ModeSize(b, 0) else 1)
    * (if OrderOf(order, 1) < OrderOf(order, i) then ModeSize(b, 1) else 1)
    * (if OrderOf(order, 2) < OrderOf(order, i) then ModeSize(b, 2) else 1)
  }

  /** Strides of an ordered compact layout; the nested mode 1 is itself
      compact with its first axis fastest. */
  function OrderedStrides(b: BufferShape, order: (nat, nat, nat)): BufferStrides {
    var s1 := ModeStride(b, order, 1);
    BufferStrides(ModeStride(b, order, 0), s1, s1 * b.warpsPerRow, ModeStride(b, order, 2))
  }

  predicate InBuffer(b: BufferShape, s: Slot) {
    s.group < b.groups && s.warp < b.warpsPerRow && s.rank < b.clusterN && s.stage < b.stage
  }

  function SlotOffset(b: BufferShape, s: Slot): nat {
    var st := OrderedStrides(b, BufferOrder);
    s.group * st.group + s.warp * st.warp + s.rank * st.rank + s.stage * st.stage
  }

  /** Number of slots of the buffer. */
  function BufferSize(b: BufferShape): nat {
    b.groups * (b.warpsPerRow * b.clusterN) * b.stage
  }

  /** Slots of one stage. */
  function StageSpan(b: BufferShape): nat {
    b.groups * (b.warpsPerRow * b.clusterN)
  }

  function Max(a: nat, b: nat): nat {
    if a >= b then a else b
  }

  /** Warps covered by the thread mode of the layout. */
  function NumWarps(tv: Layout): nat {
    ThreadCount(tv) / WarpSize
  }

  /** Warps per row, read from the first extent of the thread mode, and
      never below one. */
  function WarpsPerRow(tv: Layout): nat {
    Max(tv.thrShape.0 / WarpSize, 1)
  }

  /** The reduction-buffer shape for a thread-value layout. */
  function GetReductionBufferLayout(cfg: Reduction, tv: Layout, clusterN: nat): (b: BufferShape)
    ensures b.warpsPerRow >= 1
    ensures b.warpsPerRow * WarpSize <= Max(tv.thrShape.0, WarpSize) < (b.warpsPerRow + 1) * WarpSize
    ensures b.groups * b.warpsPerRow <= NumWarps(tv) < (b.groups + 1) * b.warpsPerRow
    ensures b.clusterN == clusterN && b.stage == cfg.stage
  {
    var numWarps := NumWarps(tv);
    var warpsPerRow := WarpsPerRow(tv);
    DigitDecompose(numWarps, warpsPerRow, numWarps / warpsPerRow + 1);
    DigitDecompose(tv.thrShape.0, WarpSize, tv.thrShape.0 / WarpSize + 1);
    BufferShape(numWarps / warpsPerRow, warpsPerRow, clusterN, cfg.stage)
  }

  /** Under the order (1, 0, 2) the warp axis has stride one, the cluster
      axis comes next, then warp groups, and the stage axis is slowest. */
  lemma BufferStridesOrdered(b: BufferShape)
    ensures OrderedStrides(b, BufferOrder)
         == BufferStrides(b.warpsPerRow * b.clusterN, 1, b.warpsPerRow, StageSpan(b))
    ensures SlotOffset(b, Slot(0, 0, 0, 0)) == 0
  {
  }

  /** A slot's offset is a mixed-radix numeral with digits, least
      significant first, warp, rank, group, stage. */
  lemma SlotOffsetMixedRadix(b: BufferShape, s: Slot)
    ensures SlotOffset(b, s)
         == s.warp + b.warpsPerRow * (s.rank + b.clusterN * (s.group + b.groups * s.stage))
  {
    BufferStridesOrdered(b);
    var w, c, g := b.warpsPerRow, b.clusterN, b.groups;
    calc {
      SlotOffset(b, s);
      s.group * (w * c) + s.warp + s.rank * w + s.stage * (g * (w * c));
      s.warp + w * (s.rank + c * s.group + c * g * s.stage);
      { assert c * (s.group + g * s.stage) == c * s.group + c * g * s.stage; }
      s.warp + w * (s.rank + c * (s.group + g * s.stage));
    }
  }

  /** Every slot lands inside the buffer, within the contiguous range of
      its own stage, and distinct slots never share an offset. */
  lemma BufferSlotsDisjoint(b: BufferShape)
    ensures forall s :: InBuffer(b, s) ==>
              s.stage * StageSpan(b) <= SlotOffset(b, s) < (s.stage + 1) * StageSpan(b) <= BufferSize(b)
    ensures forall s1, s2 ::
              InBuffer(b, s1) && InBuffer(b, s2) && SlotOffset(b, s1) == SlotOffset(b, s2) ==> s1 == s2
  {
    var w, c, g := b.warpsPerRow, b.clusterN, b.groups;
    forall s | InBuffer(b, s)
      ensures s.stage * StageSpan(b) <= SlotOffset(b, s) < (s.stage + 1) * StageSpan(b) <= BufferSize(b)
    {
      SlotWithinStage(b, s);
    }
    forall s1, s2 | InBuffer(b, s1) && InBuffer(b, s2) && SlotOffset(b, s1) == SlotOffset(b, s2)
      ensures s1 == s2
    {
      SlotDigits(b, s1);
      SlotDigits(b, s2);
    }
  }

  /** A slot lies in the contiguous range of its own stage. */
  lemma SlotWithinStage(b: BufferShape, s: Slot)
    requires InBuffer(b, s)
    ensures s.stage * StageSpan(b) <= SlotOffset(b, s) < (s.stage + 1) * StageSpan(b)
    ensures (s.stage + 1) * StageSpan(b) <= BufferSize(b)
  {
    var w, c, g := b.warpsPerRow, b.clusterN, b.groups;
    BufferStridesOrdered(b);
    assert SlotOffset(b, s) == s.group * (w * c) + s.warp + s.rank * w + s.stage * (g * (w * c));
    StageRange(s.warp, w, s.rank, c, s.group, g, s.stage, b.stage);
  }

  lemma StageRange(warp: nat, w: nat, rank: nat, c: nat, group: nat, g: nat, stage: nat, stages: nat)
    requires warp < w && rank < c && group < g && stage < stages
    ensures var span := g * (w * c);
      var o := group * (w * c) + warp + rank * w + stage * span;
      && stage * span <= o < (stage + 1) * span
      && (stage + 1) * span <= g * (w * c) * stages
  {
    var span := g * (w * c);
    DigitBound(warp, w, rank, c);
    DigitBound(warp + w * rank, w * c, group, g);
    assert group * (w * c) + warp + rank * w < span;
    assert (stage + 1) * span == stage * span + span;
    MulMonoRight(span, stage + 1, stages);
  }

  /** The digits of a slot are read back from its offset. */
  lemma SlotDigits(b: BufferShape, s: Slot)
    requires InBuffer(b, s)
    ensures var o := SlotOffset(b, s);
      && o % b.warpsPerRow == s.warp
      && (o / b.warpsPerRow) % b.clusterN == s.rank
      && (o / b.warpsPerRow / b.clusterN) % b.groups == s.group
      && o / b.warpsPerRow / b.clusterN / b.groups == s.stage
  {
    SlotOffsetMixedRadix(b, s);
    var hi2 := s.group + b.groups * s.stage;
    var hi1 := s.rank + b.clusterN * hi2;
    DigitSplit(s.warp, b.warpsPerRow, hi1);
    DigitSplit(s.rank, b.clusterN, hi2);
    DigitSplit(s.group, b.groups, s.stage);
  }

  /** When the warps-per-row count divides the warp count, the buffer holds
      one slot per warp, per cluster member and per stage. */
  lemma BufferSizeWhenDivisible(cfg: Reduction, tv: Layout, clusterN: nat)
    requires WarpsPerRow(tv) > 0 && NumWarps(tv) % WarpsPerRow(tv) == 0
    ensures BufferSize(GetReductionBufferLayout(cfg, tv, clusterN))
         == NumWarps(tv) * clusterN * cfg.stage
  {
    var b := GetReductionBufferLayout(cfg, tv, clusterN);
    DigitDecompose(NumWarps(tv), WarpsPerRow(tv), 0);
    assert b.groups * b.warpsPerRow == NumWarps(tv);
    assert BufferSize(b) == (b.groups * b.warpsPerRow) * clusterN * cfg.stage;
  }

  /** For a planned layout whose rows use whole multiples of the thread
      count, the thread mode spans `NumThreads / 32` warps, the
      warps-per-row count divides them, and the buffer holds one slot per
      warp, cluster member and stage. */
  lemma PlannedBufferSize(cfg: Reduction, threadsPerRow: nat)
    requires threadsPerRow > 0 && cfg.clusterN > 0
    requires GetTvLayout(cfg, threadsPerRow).Success?
    requires NumThreads(cfg.n) % threadsPerRow == 0
    ensures var tv := GetTvLayout(cfg, threadsPerRow).value.tv;
      && NumWarps(tv) * WarpSize == NumThreads(cfg.n)
      && NumWarps(tv) % WarpsPerRow(tv) == 0
      && BufferSize(GetReductionBufferLayout(cfg, tv, cfg.clusterN))
         == NumWarps(tv) * cfg.clusterN * cfg.stage
  {
    var tv := GetTvLayout(cfg, threadsPerRow).value.tv;
    var t := NumThreads(cfg.n);
    ThreadModeCoversBlock(cfg, threadsPerRow);
    assert ThreadCount(tv) == t;
    WarpGroupsDivide(t, tv.thrShape.0, threadsPerRow);
    assert NumWarps(tv) == t / WarpSize;
    BufferSizeWhenDivisible(cfg, tv, cfg.clusterN);
  }

  /** With 128 or 256 threads split into `cpb` rows of `tpr` threads, the
      warps-per-row count `max(cpb / 32, 1)` divides the warp count. */
  lemma WarpGroupsDivide(t: nat, cpb: nat, tpr: nat)
    requires t == 128 || t == 256
    requires tpr > 0 && cpb * tpr == t
    ensures t % WarpSize == 0
    ensures (t / WarpSize) % Max(cpb / WarpSize, 1) == 0
  {
    if tpr <= 8 {
      if tpr == 1 {
        assert cpb == t;
      } else if tpr == 2 {
        assert cpb == t / 2;
      } else if tpr == 4 {
        assert cpb == t / 4;
      } else if tpr == 8 {
        assert cpb == t / 8;
      } else {
        assert false;
      }
    } else {
      MulMonoRight(cpb, 9, tpr);
      assert cpb / WarpSize == 0;
    }
  }

  /** What a block requests from its shared-memory allocator: the
      reduction buffer (accumulator-typed) and, for clusters, one 64-bit
      barrier word per stage. */
  datatype Allocation = Allocation(buffer: BufferShape, bufferDtype: DType, barrierWords: Option<nat>)

  function AllocateReductionBufferAndMbar(cfg: Reduction, tv: Layout): (a: Allocation)
    ensures a.buffer == GetReductionBufferLayout(cfg, tv, cfg.clusterN)
    ensures a.bufferDtype == cfg.reductionDtype
    ensures a.barrierWords.Some? <==> cfg.clusterN > 1
    ensures a.barrierWords.Some? ==> a.barrierWords.value == cfg.stage
  {
    var buffer := GetReductionBufferLayout(cfg, tv, cfg.clusterN);
    if cfg.clusterN > 1 then
      Allocation(buffer, cfg.reductionDtype, Some(cfg.stage))
    else
      Allocation(buffer, cfg.reductionDtype, None)
  }

  /** Bytes of the barrier words an allocation requests. */
  function BarrierBytes(a: Allocation): nat {
    match a.barrierWords
    case None => 0
    case Some(k) => k * (BarrierBits / 8)
  }

  /** The sizing formula accounts exactly for the tile and the allocated
      reduction buffer, and reserves room for the barrier words (all of
      them when a cluster is used, unused when it is not). */
  lemma SmemCoversAllocation(cfg: Reduction, threadsPerRow: nat)
    requires threadsPerRow > 0 && cfg.clusterN > 0
    requires GetTvLayout(cfg, threadsPerRow).Success?
    requires NumThreads(cfg.n) % threadsPerRow == 0
    ensures var p := GetTvLayout(cfg, threadsPerRow).value;
      var a := AllocateReductionBufferAndMbar(cfg, p.tv);
      && SmemSizeInBytes(cfg, p.tiler, NumWarps(p.tv))
         == TileBytes(cfg.dtype, p.tiler)
            + BufferSize(a.buffer) * (a.bufferDtype.Width() / 8)
            + cfg.stage * (BarrierBits / 8)
      && BarrierBytes(a) <= cfg.stage * (BarrierBits / 8)
      && (cfg.clusterN > 1 ==> BarrierBytes(a) == cfg.stage * (BarrierBits / 8))
  {
    var p := GetTvLayout(cfg, threadsPerRow).value;
    var a := AllocateReductionBufferAndMbar(cfg, p.tv);
    PlannedBufferSize(cfg, threadsPerRow);
    var w := NumWarps(p.tv);
    var rb := cfg.reductionDtype.Width() / 8;
    var size := BufferSize(a.buffer);
    assert size == w * cfg.clusterN * cfg.stage;
    MulRegroup(cfg.stage, w, cfg.clusterN, rb);
    assert size * rb == cfg.stage * w * cfg.clusterN * rb;
  }
}
