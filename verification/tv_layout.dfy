/** The thread-value layout planner: how a block's threads and their
    vector slots cover a tile of `cols_per_block` rows. */
module TvLayout {
  import opened Wrappers
  import opened Arith
  import opened Geometry

  /** The two fatal configuration errors of layout planning. */
  datatype ConfigError =
    | DivisibilityViolation(n: nat, vecSize: nat)
    | AlignmentViolation(numThreads: nat)

  /** A nested (shape, stride) layout: the thread mode has shape
      `thrShape` and strides `thrStride`, the value mode `valShape` and
      `valStride`. */
  datatype Layout = Layout(
    thrShape: (nat, nat),
    thrStride: (nat, nat),
    valShape: (nat, nat),
    valStride: (nat, nat))

  /** The tile shape (rows, columns) together with the thread-value layout. */
  datatype Plan = Plan(tiler: (nat, nat), tv: Layout)

  /** A coordinate of the thread-value layout: two thread digits and two
      value digits. */
  datatype Coord = Coord(t0: nat, t1: nat, v0: nat, v1: nat)

  predicate InDomain(l: Layout, c: Coord) {
    && c.t0 < l.thrShape.0
    && c.t1 < l.thrShape.1
    && c.v0 < l.valShape.0
    && c.v1 < l.valShape.1
  }

  /** The tile offset a coordinate is mapped to: the inner product of the
      coordinate with the strides. */
  function Offset(l: Layout, c: Coord): nat {
    c.t0 * l.thrStride.0 + c.t1 * l.thrStride.1 + c.v0 * l.valStride.0 + c.v1 * l.valStride.1
  }

  /** Number of threads the thread mode spans. */
  function ThreadCount(l: Layout): nat {
    l.thrShape.0 * l.thrShape.1
  }

  /** The coordinate of a thread id and a value id, first mode fastest:
      `tid == t0 + thrShape.0 * t1` and `vid == v0 + valShape.0 * v1`. */
  function CoordOf(l: Layout, tid: nat, vid: nat): Coord
    requires l.thrShape.0 > 0 && l.valShape.0 > 0
  {
    Coord(tid % l.thrShape.0, tid / l.thrShape.0, vid % l.valShape.0, vid / l.valShape.0)
  }

  /** Row and column of a tile offset; the tile is stored column-major,
      so consecutive offsets walk down a column. */
  function TileRow(p: Plan, o: nat): nat
    requires p.tiler.0 > 0
  {
    o % p.tiler.0
  }

  function TileCol(p: Plan, o: nat): nat
    requires p.tiler.0 > 0
  {
    o / p.tiler.0
  }

  /** Plans the tile and thread-value layout of one block, given the
      threads that service one row. Fails when the row length is not a
      multiple of the vector width. */
  function GetTvLayout(cfg: Reduction, threadsPerRow: nat): (r: Result<Plan, ConfigError>)
    requires threadsPerRow > 0 && cfg.clusterN > 0
    ensures r.Failure? <==> cfg.n % VecSize(cfg.dtype) != 0
    ensures r.Failure? ==> r.error == DivisibilityViolation(cfg.n, VecSize(cfg.dtype))
    ensures r.Success? ==>
      && r.value.tv.thrShape == (r.value.tiler.0, threadsPerRow)
      && r.value.tv.valShape.0 == VecSize(cfg.dtype)
      && r.value.tiler.0 * threadsPerRow <= NumThreads(cfg.n) < (r.value.tiler.0 + 1) * threadsPerRow
      && r.value.tiler.1 == r.value.tv.valShape.0 * r.value.tv.valShape.1 * threadsPerRow
  {
    var vec := VecSize(cfg.dtype);
    if cfg.n % vec != 0 then
      Failure(DivisibilityViolation(cfg.n, vec))
    else
      var numThreads := NumThreads(cfg.n);
      if numThreads % WarpSize != 0 then
        Failure(AlignmentViolation(numThreads))
      else
        MulAtLeast(threadsPerRow, cfg.clusterN);
        var numBlocksN := CeilDiv(cfg.n / vec, threadsPerRow * cfg.clusterN);
        var colsPerBlock := numThreads / threadsPerRow;
        DigitDecompose(numThreads, threadsPerRow, colsPerBlock + 1);
        Success(Plan(
          (colsPerBlock, vec * numBlocksN * threadsPerRow),
          Layout(
            (colsPerBlock, threadsPerRow), (1, vec * colsPerBlock),
            (vec, numBlocksN), (colsPerBlock, colsPerBlock * vec * threadsPerRow))))
  }

  /** The blocks of one cluster cover the row with less than one chunk of
      `vec * threadsPerRow * clusterN` elements of slack. */
  lemma RowCoverTight(cfg: Reduction, threadsPerRow: nat)
    requires threadsPerRow > 0 && cfg.clusterN > 0
    requires GetTvLayout(cfg, threadsPerRow).Success?
    ensures var p := GetTvLayout(cfg, threadsPerRow).value;
      && p.tiler.1 * cfg.clusterN >= cfg.n
      && p.tiler.1 * cfg.clusterN < cfg.n + VecSize(cfg.dtype) * threadsPerRow * cfg.clusterN
  {
    var p := GetTvLayout(cfg, threadsPerRow).value;
    var vec := VecSize(cfg.dtype);
    var k := threadsPerRow * cfg.clusterN;
    var m := cfg.n / vec;
    var nb := p.tv.valShape.1;
    assert nb == CeilDiv(m, k);
    DigitDecompose(cfg.n, vec, 0);
    assert cfg.n == vec * m;
    ScaleBounds(vec, m, nb * k, k);
    MulRegroup(vec, nb, threadsPerRow, cfg.clusterN);
    assert p.tiler.1 * cfg.clusterN == vec * (nb * k);
    assert VecSize(cfg.dtype) * threadsPerRow * cfg.clusterN == vec * k;
  }

  /** `num_blocks_N` is the least number of block-chunks whose cluster-wide
      columns cover the row. */
  lemma NumBlocksNLeast(cfg: Reduction, threadsPerRow: nat, blocks: nat)
    requires threadsPerRow > 0 && cfg.clusterN > 0
    requires GetTvLayout(cfg, threadsPerRow).Success?
    requires VecSize(cfg.dtype) * threadsPerRow * blocks * cfg.clusterN >= cfg.n
    ensures GetTvLayout(cfg, threadsPerRow).value.tv.valShape.1 <= blocks
  {
    var p := GetTvLayout(cfg, threadsPerRow).value;
    var vec := VecSize(cfg.dtype);
    var u := vec * threadsPerRow * cfg.clusterN;
    var nb := p.tv.valShape.1;
    RowCoverTight(cfg, threadsPerRow);
    MulRegroup(vec, nb, threadsPerRow, cfg.clusterN);
    assert p.tiler.1 * cfg.clusterN == u * nb;
    MulRegroup(vec, threadsPerRow, blocks, cfg.clusterN);
    LeastCover(u, nb, blocks, cfg.n);
  }

  /** The planned extents, named: rows are the floor of the thread count
      over `threadsPerRow`, columns are `vec * threadsPerRow` per block-chunk. */
  lemma PlanExtents(cfg: Reduction, threadsPerRow: nat)
    requires threadsPerRow > 0 && cfg.clusterN > 0
    requires GetTvLayout(cfg, threadsPerRow).Success?
    ensures var p := GetTvLayout(cfg, threadsPerRow).value;
      && p.tiler.0 == NumThreads(cfg.n) / threadsPerRow
      && p.tiler.1 == VecSize(cfg.dtype) * threadsPerRow
                      * CeilDiv(cfg.n / VecSize(cfg.dtype), threadsPerRow * cfg.clusterN)
  {
  }

  /** A longer row never plans a tile with fewer rows or columns. */
  lemma TilerMonotoneInN(cfg: Reduction, threadsPerRow: nat, n2: nat)
    requires threadsPerRow > 0 && cfg.clusterN > 0 && cfg.n <= n2
    requires GetTvLayout(cfg, threadsPerRow).Success?
    requires GetTvLayout(cfg.(n := n2), threadsPerRow).Success?
    ensures GetTvLayout(cfg, threadsPerRow).value.tiler.0
            <= GetTvLayout(cfg.(n := n2), threadsPerRow).value.tiler.0
    ensures GetTvLayout(cfg, threadsPerRow).value.tiler.1
            <= GetTvLayout(cfg.(n := n2), threadsPerRow).value.tiler.1
  {
    var cfg2 := cfg.(n := n2);
    var vec := VecSize(cfg.dtype);
    var k := threadsPerRow * cfg.clusterN;
    PlanExtents(cfg, threadsPerRow);
    PlanExtents(cfg2, threadsPerRow);
    DivMonotone(NumThreads(cfg.n), NumThreads(n2), threadsPerRow);
    DivMonotone(cfg.n, n2, vec);
    CeilDivMonotone(cfg.n / vec, n2 / vec, k);
    MulMonoRight(vec * threadsPerRow, CeilDiv(cfg.n / vec, k), CeilDiv(n2 / vec, k));
  }

  /** With the planned strides, the offset is a mixed-radix numeral whose
      digits, least significant first, are t0, v0, t1, v1. */
  lemma OffsetMixedRadix(l: Layout, c: Coord)
    requires l.thrStride == (1, l.valShape.0 * l.thrShape.0)
    requires l.valStride == (l.thrShape.0, l.thrShape.0 * l.valShape.0 * l.thrShape.1)
    ensures Offset(l, c)
      == c.t0 + l.thrShape.0 * (c.v0 + l.valShape.0 * (c.t1 + l.thrShape.1 * c.v1))
  {
    var cpb, vec, tpr := l.thrShape.0, l.valShape.0, l.thrShape.1;
    calc {
      Offset(l, c);
      c.t0 + c.t1 * (vec * cpb) + c.v0 * cpb + c.v1 * (cpb * vec * tpr);
      c.t0 + cpb * (c.v0 + vec * c.t1 + vec * tpr * c.v1);
      { assert vec * (c.t1 + tpr * c.v1) == vec * c.t1 + vec * tpr * c.v1; }
      c.t0 + cpb * (c.v0 + vec * (c.t1 + tpr * c.v1));
    }
  }

  /** The stride pattern the planner produces, stated over the shape. */
  predicate CompactTv(l: Layout) {
    && l.thrShape.0 > 0 && l.thrShape.1 > 0 && l.valShape.0 > 0
    && l.thrStride == (1, l.valShape.0 * l.thrShape.0)
    && l.valStride == (l.thrShape.0, l.thrShape.0 * l.valShape.0 * l.thrShape.1)
  }

  /** Reads the digits t0, v0, t1, v1 back off an offset. */
  function Decode(l: Layout, o: nat): Coord
    requires l.thrShape.0 > 0 && l.thrShape.1 > 0 && l.valShape.0 > 0
  {
    var q1: nat := o / l.thrShape.0;
    var q2: nat := q1 / l.valShape.0;
    Coord(o % l.thrShape.0, q2 % l.thrShape.1, q1 % l.valShape.0, q2 / l.thrShape.1)
  }

  /** Number of tile elements the layout addresses. */
  function CoSize(l: Layout): nat {
    l.thrShape.0 * (l.valShape.0 * (l.thrShape.1 * l.valShape.1))
  }

  /** Decoding inverts the offset on the layout's domain. */
  lemma DecodeOffset(l: Layout, c: Coord)
    requires CompactTv(l) && InDomain(l, c)
    ensures Offset(l, c) < CoSize(l)
    ensures Decode(l, Offset(l, c)) == c
  {
    var cpb, vec, tpr, nb := l.thrShape.0, l.valShape.0, l.thrShape.1, l.valShape.1;
    OffsetMixedRadix(l, c);
    var hi2 := c.t1 + tpr * c.v1;
    var hi1 := c.v0 + vec * hi2;
    DigitSplit(c.t0, cpb, hi1);
    DigitSplit(c.v0, vec, hi2);
    DigitSplit(c.t1, tpr, c.v1);
    DigitBound(c.t1, tpr, c.v1, nb);
    DigitBound(c.v0, vec, hi2, tpr * nb);
    DigitBound(c.t0, cpb, hi1, vec * (tpr * nb));
  }

  /** Every offset below the co-size is the image of its decoding. */
  lemma OffsetDecode(l: Layout, o: nat)
    requires CompactTv(l) && o < CoSize(l)
    ensures InDomain(l, Decode(l, o))
    ensures Offset(l, Decode(l, o)) == o
  {
    var cpb, vec, tpr, nb := l.thrShape.0, l.valShape.0, l.thrShape.1, l.valShape.1;
    var c := Decode(l, o);
    var q1 := o / cpb;
    var q2 := q1 / vec;
    DigitDecompose(o, cpb, vec * (tpr * nb));
    DigitDecompose(q1, vec, tpr * nb);
    DigitDecompose(q2, tpr, nb);
    OffsetMixedRadix(l, c);
  }

  /** An offset is covered when some coordinate of the domain maps to it. */
  ghost predicate Covered(l: Layout, o: nat) {
    exists c :: InDomain(l, c) && Offset(l, c) == o
  }

  /** The planned layout is a bijection from its domain onto
      `[0, rows * columns)` of the tile: every coordinate lands inside the
      tile, no two coordinates share an offset, and every offset of the
      tile is reached. */
  lemma TvLayoutBijective(cfg: Reduction, threadsPerRow: nat)
    requires threadsPerRow > 0 && cfg.clusterN > 0
    requires GetTvLayout(cfg, threadsPerRow).Success?
    ensures var p := GetTvLayout(cfg, threadsPerRow).value;
      && (forall c :: InDomain(p.tv, c) ==> Offset(p.tv, c) < p.tiler.0 * p.tiler.1)
      && (forall c1, c2 :: InDomain(p.tv, c1) && InDomain(p.tv, c2) && Offset(p.tv, c1) == Offset(p.tv, c2)
            ==> c1 == c2)
      && (forall o: nat :: o < p.tiler.0 * p.tiler.1 ==> Covered(p.tv, o))
  {
    var p := GetTvLayout(cfg, threadsPerRow).value;
    var l := p.tv;
    assert CoSize(l) == p.tiler.0 * p.tiler.1;
    if p.tiler.0 == 0 {
      assert forall c :: !InDomain(l, c);
    } else {
      assert CompactTv(l);
      forall c | InDomain(l, c)
        ensures Offset(l, c) < p.tiler.0 * p.tiler.1
      {
        DecodeOffset(l, c);
      }
      forall c1, c2 | InDomain(l, c1) && InDomain(l, c2) && Offset(l, c1) == Offset(l, c2)
        ensures c1 == c2
      {
        DecodeOffset(l, c1);
        DecodeOffset(l, c2);
      }
      forall o: nat | o < p.tiler.0 * p.tiler.1
        ensures Covered(l, o)
      {
        OffsetDecode(l, o);
      }
    }
  }

  /** The thread mode spans exactly the block's threads precisely when
      `threadsPerRow` divides the thread count; otherwise the surplus
      threads own no element. */
  lemma ThreadModeCoversBlock(cfg: Reduction, threadsPerRow: nat)
    requires threadsPerRow > 0 && cfg.clusterN > 0
    requires GetTvLayout(cfg, threadsPerRow).Success?
    ensures ThreadCount(GetTvLayout(cfg, threadsPerRow).value.tv) == NumThreads(cfg.n)
        <==> NumThreads(cfg.n) % threadsPerRow == 0
  {
    var l := GetTvLayout(cfg, threadsPerRow).value.tv;
    var t := NumThreads(cfg.n);
    DigitDecompose(t, threadsPerRow, 0);
    assert ThreadCount(l) == threadsPerRow * (t / threadsPerRow);
  }

  /** Thread `tid` owns tile row `tid % cols_per_block`; inside that row its
      `vec` values of one block-chunk sit in adjacent columns. */
  lemma ThreadOwnsRow(cfg: Reduction, threadsPerRow: nat, tid: nat, vid: nat)
    requires threadsPerRow > 0 && cfg.clusterN > 0
    requires GetTvLayout(cfg, threadsPerRow).Success?
    requires NumThreads(cfg.n) % threadsPerRow == 0
    requires tid < NumThreads(cfg.n)
    requires vid < GetTvLayout(cfg, threadsPerRow).value.tv.valShape.0 * GetTvLayout(cfg, threadsPerRow).value.tv.valShape.1
    ensures var p := GetTvLayout(cfg, threadsPerRow).value;
      && p.tiler.0 > 0
      && InDomain(p.tv, CoordOf(p.tv, tid, vid))
      && TileRow(p, Offset(p.tv, CoordOf(p.tv, tid, vid))) == tid % p.tiler.0
      && TileCol(p, Offset(p.tv, CoordOf(p.tv, tid, vid)))
         == vid % VecSize(cfg.dtype)
            + VecSize(cfg.dtype) * (tid / p.tiler.0 + threadsPerRow * (vid / VecSize(cfg.dtype)))
  {
    var p := GetTvLayout(cfg, threadsPerRow).value;
    var l := p.tv;
    var cpb, vec := p.tiler.0, VecSize(cfg.dtype);
    var t := NumThreads(cfg.n);
    DigitDecompose(t, threadsPerRow, 0);
    assert t == cpb * threadsPerRow;
    assert cpb > 0;
    var c := CoordOf(l, tid, vid);
    DigitDecompose(tid, cpb, threadsPerRow);
    DigitDecompose(vid, vec, l.valShape.1);
    assert InDomain(l, c);
    OffsetMixedRadix(l, c);
    DigitSplit(c.t0, cpb, c.v0 + vec * (c.t1 + threadsPerRow * c.v1));
  }
}
