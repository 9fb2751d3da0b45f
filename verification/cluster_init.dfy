/** Per-thread barrier initialisation for rows reduced by a cluster of
    blocks, modelled as the sequence of barrier operations a thread
    issues. */
module ClusterInit {
  import opened Wrappers
  import opened Arith
  import opened Geometry
  import opened TvLayout
  import opened SmemSizing
  import opened ReductionBuffer

  /** Abstract barrier operations: arm barrier `barrier` with an arrival
      count, the barrier-init fence, set the expected transaction bytes of
      barrier `barrier`, and the relaxed cluster arrive. */
  datatype Op =
    | InitArrive(barrier: nat, count: nat)
    | Fence
    | TxBytes(barrier: nat, bytes: nat)
    | ClusterArrive

  predicate Touches(op: Op) {
    op.InitArrive? || op.TxBytes?
  }

  /** Bytes one synchronisation round delivers to a barrier: one
      accumulator per warp and per cluster member. */
  function ExpectedTxBytes(cfg: Reduction, numWarps: nat): nat {
    numWarps * cfg.clusterN * cfg.reductionDtype.Width() / 8
  }

  /** The operations thread `tidx` issues. Only clusters initialise
      barriers; the first `stage` threads each own the barrier of their
      index. */
  function InitializeCluster(cfg: Reduction, tidx: nat, numWarps: nat): (ops: seq<Op>)
    ensures cfg.clusterN <= 1 ==> ops == []
    ensures cfg.clusterN > 1 ==>
              && |ops| == (if tidx < cfg.stage then 4 else 2)
              && ops[|ops| - 1] == ClusterArrive
    ensures cfg.clusterN > 1 ==> ops[if tidx < cfg.stage then 1 else 0] == Fence
    ensures cfg.clusterN > 1 && tidx < cfg.stage ==>
              ops[0] == InitArrive(tidx, 1) && ops[2] == TxBytes(tidx, ExpectedTxBytes(cfg, numWarps))
    ensures forall i :: 0 <= i < |ops| && Touches(ops[i]) ==> ops[i].barrier == tidx < cfg.stage
    ensures forall i, j :: 0 <= i < j < |ops| && ops[j].InitArrive? ==> !ops[i].Fence?
    ensures forall i, j :: 0 <= i < j < |ops| && ops[j].TxBytes? ==> ops[i].Fence? || ops[i].InitArrive?
  {
    if cfg.clusterN > 1 then
      var owner := tidx < cfg.stage;
      (if owner then [InitArrive(tidx, 1)] else [])
      + [Fence]
      + (if owner then [TxBytes(tidx, ExpectedTxBytes(cfg, numWarps))] else [])
      + [ClusterArrive]
    else
      []
  }

  /** Phases of one thread's barrier setup. */
  datatype Phase = Uninitialized | ArriveCountSet | FencePassed | TxBytesSet | ClusterArrived

  /** One transition of the setup protocol for a thread that owns barrier
      `barrier` (when `owner`) and expects `bytes` per round. */
  function Step(owner: bool, barrier: nat, bytes: nat, p: Phase, op: Op): Option<Phase> {
    match (p, op)
    case (Uninitialized, InitArrive(b, c)) =>
      if owner && b == barrier && c == 1 then Some(ArriveCountSet) else None
    case (Uninitialized, Fence) => if owner then None else Some(FencePassed)
    case (ArriveCountSet, Fence) => Some(FencePassed)
    case (FencePassed, TxBytes(b, k)) =>
      if owner && b == barrier && k == bytes then Some(TxBytesSet) else None
    case (FencePassed, ClusterArrive) => if owner then None else Some(ClusterArrived)
    case (TxBytesSet, ClusterArrive) => Some(ClusterArrived)
    case _ => None
  }

  /** Runs the protocol over a sequence of operations; `None` when some
      operation is not allowed in the phase reached. */
  function Run(owner: bool, barrier: nat, bytes: nat, p: Phase, ops: seq<Op>): Option<Phase>
    decreases |ops|
  {
    if ops == [] then Some(p)
    else
      match Step(owner, barrier, bytes, p, ops[0])
      case None => None
      case Some(q) => Run(owner, barrier, bytes, q, ops[1..])
  }

  /** The operations still to issue from phase `p` to finish the setup. */
  function Remaining(owner: bool, barrier: nat, bytes: nat, p: Phase): seq<Op> {
    match p
    case Uninitialized =>
      if owner then [InitArrive(barrier, 1), Fence, TxBytes(barrier, bytes), ClusterArrive]
      else [Fence, ClusterArrive]
    case ArriveCountSet => [Fence, TxBytes(barrier, bytes), ClusterArrive]
    case FencePassed => if owner then [TxBytes(barrier, bytes), ClusterArrive] else [ClusterArrive]
    case TxBytesSet => [ClusterArrive]
    case ClusterArrived => []
  }

  /** Only owners ever arm or configure a barrier. */
  predicate Reachable(owner: bool, p: Phase) {
    owner || (p != ArriveCountSet && p != TxBytesSet)
  }

  /** From any reachable phase, exactly one operation sequence completes the setup. */
  lemma {:induction false} RunCompletesOnlyRemaining(owner: bool, barrier: nat, bytes: nat, p: Phase, ops: seq<Op>)
    requires Reachable(owner, p)
    ensures Run(owner, barrier, bytes, p, ops) == Some(ClusterArrived)
            <==> ops == Remaining(owner, barrier, bytes, p)
    decreases |ops|
  {
    if ops != [] {
      match Step(owner, barrier, bytes, p, ops[0])
      case None =>
      case Some(q) =>
        RunCompletesOnlyRemaining(owner, barrier, bytes, q, ops[1..]);
    }
  }

  /** For a cluster, the trace a thread issues is the one and only
      operation sequence that takes it through the setup protocol: arm its
      barrier, fence, set the expected bytes, then arrive. */
  lemma InitTraceIsTheProtocol(cfg: Reduction, tidx: nat, numWarps: nat, ops: seq<Op>)
    requires cfg.clusterN > 1
    ensures Run(tidx < cfg.stage, tidx, ExpectedTxBytes(cfg, numWarps), Uninitialized, ops) == Some(ClusterArrived)
            <==> ops == InitializeCluster(cfg, tidx, numWarps)
  {
    var owner := tidx < cfg.stage;
    var bytes := ExpectedTxBytes(cfg, numWarps);
    RunCompletesOnlyRemaining(owner, tidx, bytes, Uninitialized, ops);
    assert InitializeCluster(cfg, tidx, numWarps) == Remaining(owner, tidx, bytes, Uninitialized);
  }

  /** Every barrier a thread touches is one of the barrier words the
      block allocated. */
  lemma BarriersWithinAllocation(cfg: Reduction, tv: Layout, tidx: nat, numWarps: nat)
    ensures var ops := InitializeCluster(cfg, tidx, numWarps);
      var a := AllocateReductionBufferAndMbar(cfg, tv);
      forall i :: 0 <= i < |ops| && Touches(ops[i]) ==>
        a.barrierWords.Some? && ops[i].barrier < a.barrierWords.value
  {
  }

  /** The bytes expected per round equal one stage of the reduction
      scratch in the sizing formula, and for a planned layout, one stage
      of the allocated reduction buffer. */
  lemma TxBytesIsOneStage(cfg: Reduction, threadsPerRow: nat)
    requires threadsPerRow > 0 && cfg.clusterN > 0
    requires GetTvLayout(cfg, threadsPerRow).Success?
    requires NumThreads(cfg.n) % threadsPerRow == 0
    ensures var tv := GetTvLayout(cfg, threadsPerRow).value.tv;
      var b := GetReductionBufferLayout(cfg, tv, cfg.clusterN);
      && ExpectedTxBytes(cfg, NumWarps(tv)) == StageScratchBytes(cfg, NumWarps(tv))
      && ExpectedTxBytes(cfg, NumWarps(tv)) == StageSpan(b) * (cfg.reductionDtype.Width() / 8)
  {
    var tv := GetTvLayout(cfg, threadsPerRow).value.tv;
    var b := GetReductionBufferLayout(cfg, tv, cfg.clusterN);
    var w := NumWarps(tv);
    BytesOfBits(w * cfg.clusterN, cfg.reductionDtype.Width());
    PlannedBufferSize(cfg, threadsPerRow);
    DigitDecompose(w, b.warpsPerRow, 0);
    assert b.groups * b.warpsPerRow == w;
    assert StageSpan(b) == w * cfg.clusterN;
  }
}
