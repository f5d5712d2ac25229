/** Closure accounting: validated durable facts, their refusal snapshot, and the closure gate. */
module Closure {
  import opened Outcomes
  import opened Wire
  import opened Capacity

  // State.

  type ClosureDebt = d: WideResourceVector | !d.IsZero() witness WideResourceVector(1, 0)

  datatype StoredEdge =
    | ObserverProjection(throughSeq: U64)
    | PhysicalCompaction(fromFloor: U64, throughSeq: U64)
    | MarkerDelivery(conversation: U64, participant: U64, epoch: BindingEpoch, markerSeq: U64)
    | ContinuousProgress(participant: U64, epoch: BindingEpoch, throughSeq: U64)
    | MarkerProgress(conversation: U64, participant: U64, epoch: BindingEpoch, throughSeq: U64, markerSeq: U64)
    | DetachedCredentialRecovery(conversation: U64, participant: U64, markerSeq: U64, priorEpoch: BindingEpoch)
    | DetachedMarkerRelease(participant: U64, markerSeq: U64, lastDeadEpoch: BindingEpoch)
    | DetachedCursorRelease(participant: U64, lastDeadEpoch: BindingEpoch)

  datatype ClosureState = Clear | Owed(debt: ClosureDebt, edge: StoredEdge)

  datatype ClosureAccounting = ClosureAccounting(
    state: ClosureState,
    markerCredits: U64,
    markerAnchors: U64,
    edgeSequenceClaims: U64,
    edgeOrderClaims: U64,
    edgeKRemaining: ResourceVector,
    baseline: WideResourceVector,
    cap: ResourceVector,
    churnUsed: U64,
    churnLimit: U64)

  datatype AccountingError =
    | ZeroChurnLimit
    | ChurnUsedExceedsLimit(used: U64, limit: U64)
    | MarkerAnchorsExceedCredits(anchors: U64, credits: U64)
    | BaselineExceedsCapacity(over: ResourceDimension)
    | ClearStateOwnsEdgeResources
    | DebtOutsideWireDomain(outside: ResourceDimension)

  /** Validates one complete accounting, reporting the first failing check. */
  function Validate(a: ClosureAccounting): (r: Result<ClosureAccounting, AccountingError>) {
    if a.churnLimit == 0 then Err(ZeroChurnLimit)
    else if a.churnUsed > a.churnLimit then Err(ChurnUsedExceedsLimit(a.churnUsed, a.churnLimit))
    else if a.markerAnchors > a.markerCredits then Err(MarkerAnchorsExceedCredits(a.markerAnchors, a.markerCredits))
    else if a.baseline.entries > a.cap.entries then Err(BaselineExceedsCapacity(Entries))
    else if a.baseline.bytes > a.cap.bytes then Err(BaselineExceedsCapacity(Bytes))
    else
      match a.state
      case Clear =>
        if a.edgeSequenceClaims != 0 || a.edgeOrderClaims != 0 || a.edgeKRemaining != ResourceVector(0, 0)
        then Err(ClearStateOwnsEdgeResources)
        else Ok(a)
      case Owed(debt, _) =>
        if debt.entries > U64_MAX then Err(DebtOutsideWireDomain(Entries))
        else if debt.bytes > U64_MAX then Err(DebtOutsideWireDomain(Bytes))
        else Ok(a)
  }

  /** The accountings a program can hold. */
  predicate Valid(a: ClosureAccounting) {
    Validate(a).Ok?
  }

  /** Anchors within credits, baseline within the cap, churn within its limit, and no debt without its edge. */
  lemma ValidExactly(a: ClosureAccounting)
    ensures Valid(a) <==>
      1 <= a.churnLimit && a.churnUsed <= a.churnLimit && a.markerAnchors <= a.markerCredits &&
      FirstOver(a.baseline.entries, a.cap.entries, a.baseline.bytes, a.cap.bytes).None? &&
      (a.state.Clear? ==> a.edgeSequenceClaims == a.edgeOrderClaims == 0 && a.edgeKRemaining == ResourceVector(0, 0)) &&
      (a.state.Owed? ==> FirstOver(a.state.debt.entries, U64_MAX, a.state.debt.bytes, U64_MAX).None?)
  {
  }

  /** Which check an invalid accounting fails: the one named, with those before it passed. */
  lemma ValidateRefusesFirst(a: ClosureAccounting)
    requires !Valid(a)
    ensures match Validate(a).error
      case ZeroChurnLimit => a.churnLimit == 0
      case ChurnUsedExceedsLimit(used, limit) => 0 < a.churnLimit == limit < used == a.churnUsed
      case MarkerAnchorsExceedCredits(anchors, credits) =>
        a.churnUsed <= a.churnLimit && a.markerCredits == credits < anchors == a.markerAnchors
      case BaselineExceedsCapacity(over) =>
        a.markerAnchors <= a.markerCredits &&
        FirstOver(a.baseline.entries, a.cap.entries, a.baseline.bytes, a.cap.bytes) == Some(over)
      case ClearStateOwnsEdgeResources =>
        a.state.Clear? && a.baseline.bytes <= a.cap.bytes &&
        (a.edgeSequenceClaims > 0 || a.edgeOrderClaims > 0 || a.edgeKRemaining != ResourceVector(0, 0))
      case DebtOutsideWireDomain(outside) =>
        a.state.Owed? && a.baseline.bytes <= a.cap.bytes &&
        FirstOver(a.state.debt.entries, U64_MAX, a.state.debt.bytes, U64_MAX) == Some(outside)
  {
  }

  // The refusal snapshot.

  datatype RepaymentEdge =
    | NoEdge
    | WireProjection(throughSeq: U64)
    | WireCompaction(fromFloor: U64, throughSeq: U64)
    | WireDelivery(participant: U64, epoch: BindingEpoch, markerSeq: U64)
    | WireProgress(participant: U64, epoch: BindingEpoch, throughSeq: U64, marker: Option<U64>)
    | WireCredentialRecovery(participant: U64, markerSeq: U64, priorEpoch: BindingEpoch)
    | WireMarkerRelease(participant: U64, markerSeq: U64, lastDeadEpoch: BindingEpoch)
    | WireCursorRelease(participant: U64, lastDeadEpoch: BindingEpoch)

  function EdgeOnWire(edge: StoredEdge): (wire: RepaymentEdge) {
    match edge
    case ObserverProjection(t) => WireProjection(t)
    case PhysicalCompaction(f, t) => WireCompaction(f, t)
    case MarkerDelivery(_, p, e, m) => WireDelivery(p, e, m)
    case ContinuousProgress(p, e, t) => WireProgress(p, e, t, None)
    case MarkerProgress(_, p, e, t, m) => WireProgress(p, e, t, Some(m))
    case DetachedCredentialRecovery(_, p, m, e) => WireCredentialRecovery(p, m, e)
    case DetachedMarkerRelease(p, m, e) => WireMarkerRelease(p, m, e)
    case DetachedCursorRelease(p, e) => WireCursorRelease(p, e)
  }

  function SaturateU64(n: U128): U64 { if n <= U64_MAX then n else U64_MAX }

  function StateOnWire(state: ClosureState): (ResourceVector, RepaymentEdge) {
    match state
    case Clear => (ResourceVector(0, 0), NoEdge)
    case Owed(debt, edge) => (ResourceVector(SaturateU64(debt.entries), SaturateU64(debt.bytes)), EdgeOnWire(edge))
  }

  datatype ClosureSnapshot = ClosureSnapshot(
    markerCredits: U64,
    markerAnchors: U64,
    debt: ResourceVector,
    edge: RepaymentEdge,
    edgeSequenceClaims: U64,
    edgeOrderClaims: U64,
    edgeKRemaining: ResourceVector,
    headroom: WideResourceVector,
    churnUsed: U64,
    deltaCycles: U64,
    churnLimit: U64)

  /** Both headroom subtractions are unchecked in the source; validation is what keeps them from underflowing. */
  function Snapshot(a: ClosureAccounting, deltaCycles: U64): (s: ClosureSnapshot)
    requires Valid(a)
    ensures s.headroom.entries + a.baseline.entries == a.cap.entries
    ensures s.headroom.bytes + a.baseline.bytes == a.cap.bytes
  {
    var (debt, edge) := StateOnWire(a.state);
    ClosureSnapshot(
      a.markerCredits, a.markerAnchors, debt, edge, a.edgeSequenceClaims, a.edgeOrderClaims, a.edgeKRemaining,
      WideResourceVector(a.cap.entries - a.baseline.entries, a.cap.bytes - a.baseline.bytes),
      a.churnUsed, deltaCycles, a.churnLimit)
  }

  /** An edge with its conversation removed, which the wire form leaves to the enclosing message. */
  function WithoutConversation(edge: StoredEdge): StoredEdge {
    match edge
    case MarkerDelivery(_, p, e, m) => MarkerDelivery(0, p, e, m)
    case MarkerProgress(_, p, e, t, m) => MarkerProgress(0, p, e, t, m)
    case DetachedCredentialRecovery(_, p, m, e) => DetachedCredentialRecovery(0, p, m, e)
    case _ => edge
  }

  predicate SameState(left: ClosureState, right: ClosureState) {
    (left.Clear? <==> right.Clear?) &&
    (left.Owed? && right.Owed? ==>
       left.debt == right.debt && WithoutConversation(left.edge) == WithoutConversation(right.edge))
  }

  /** A snapshot pins its accounting down to the conversation and the split of the cap: nothing saturates. */
  lemma SnapshotsAreExact(left: ClosureAccounting, right: ClosureAccounting, delta: U64)
    requires Valid(left) && Valid(right) && left.cap == right.cap
    ensures Snapshot(left, delta) == Snapshot(right, delta) <==>
      left.(state := Clear) == right.(state := Clear) && SameState(left.state, right.state)
  {
    EdgesAreExact(left.state, right.state);
  }

  /** The stored edge a wire edge shows, under the conversation of the message that carries it. */
  function EdgeOffWire(edge: RepaymentEdge, conversation: U64): StoredEdge
    requires !edge.NoEdge?
  {
    match edge
    case WireProjection(throughSeq) => ObserverProjection(throughSeq)
    case WireCompaction(fromFloor, throughSeq) => PhysicalCompaction(fromFloor, throughSeq)
    case WireDelivery(participant, epoch, markerSeq) => MarkerDelivery(conversation, participant, epoch, markerSeq)
    case WireProgress(participant, epoch, throughSeq, None) => ContinuousProgress(participant, epoch, throughSeq)
    case WireProgress(participant, epoch, throughSeq, Some(markerSeq)) =>
      MarkerProgress(conversation, participant, epoch, throughSeq, markerSeq)
    case WireCredentialRecovery(participant, markerSeq, priorEpoch) =>
      DetachedCredentialRecovery(conversation, participant, markerSeq, priorEpoch)
    case WireMarkerRelease(participant, markerSeq, lastDeadEpoch) =>
      DetachedMarkerRelease(participant, markerSeq, lastDeadEpoch)
    case WireCursorRelease(participant, lastDeadEpoch) => DetachedCursorRelease(participant, lastDeadEpoch)
  }

  /** The wire edge shows the stored one, field by field, up to its conversation. */
  lemma WireEdgeShowsStored(edge: StoredEdge)
    ensures !EdgeOnWire(edge).NoEdge? && EdgeOffWire(EdgeOnWire(edge), 0) == WithoutConversation(edge)
  {
  }

  /** The accounting a snapshot discloses under a known cap; the cap less the headroom is the baseline. */
  function Disclosed(s: ClosureSnapshot, cap: ResourceVector): ClosureAccounting
    requires s.headroom.entries <= cap.entries && s.headroom.bytes <= cap.bytes
    requires s.edge.NoEdge? <==> s.debt == ResourceVector(0, 0)
  {
    ClosureAccounting(
      state := if s.edge.NoEdge? then Clear
               else Owed(WideResourceVector(s.debt.entries, s.debt.bytes), EdgeOffWire(s.edge, 0)),
      markerCredits := s.markerCredits,
      markerAnchors := s.markerAnchors,
      edgeSequenceClaims := s.edgeSequenceClaims,
      edgeOrderClaims := s.edgeOrderClaims,
      edgeKRemaining := s.edgeKRemaining,
      baseline := WideResourceVector(cap.entries - s.headroom.entries, cap.bytes - s.headroom.bytes),
      cap := cap,
      churnUsed := s.churnUsed,
      churnLimit := s.churnLimit)
  }

  function StateWithoutConversation(state: ClosureState): ClosureState {
    match state
    case Clear => Clear
    case Owed(debt, edge) => Owed(debt, WithoutConversation(edge))
  }

  /** Read back under the cap, a snapshot is the accounting it was taken of and the charge it was taken under. */
  lemma SnapshotDisclosesAccounting(a: ClosureAccounting, delta: U64)
    requires Valid(a)
    ensures var s := Snapshot(a, delta);
      s.deltaCycles == delta && (s.edge.NoEdge? <==> s.debt == ResourceVector(0, 0)) &&
      Disclosed(s, a.cap) == a.(state := StateWithoutConversation(a.state))
  {
    if a.state.Owed? { WireEdgeShowsStored(a.state.edge); }
  }

  lemma EdgesAreExact(left: ClosureState, right: ClosureState)
    ensures left.Owed? && right.Owed? ==>
      (EdgeOnWire(left.edge) == EdgeOnWire(right.edge) <==>
       WithoutConversation(left.edge) == WithoutConversation(right.edge))
  {
  }

  // Required capacity.

  datatype PlanError = EmptySuccessorSet | ArithmeticOverflow(overflowing: ResourceDimension)

  datatype RequiredCapacityPlan = RequiredCapacityPlan(maximum: WideResourceVector)

  function Larger(a: U128, b: U128): U128 { if a >= b then a else b }

  function FoldMaximum(first: WideResourceVector, rest: seq<WideResourceVector>): (m: WideResourceVector)
    decreases |rest|
  {
    if rest == [] then first
    else
      FoldMaximum(
        WideResourceVector(Larger(first.entries, rest[0].entries), Larger(first.bytes, rest[0].bytes)), rest[1..])
  }

  function FromSuccessors(successors: seq<WideResourceVector>): (r: Result<RequiredCapacityPlan, PlanError>) {
    if successors == [] then Err(EmptySuccessorSet)
    else Ok(RequiredCapacityPlan(FoldMaximum(successors[0], successors[1..])))
  }

  function Ordinary(baseline: WideResourceVector, q: ResourceVector, k: ResourceVector)
    : (r: Result<RequiredCapacityPlan, PlanError>)
  {
    match CheckedAdd(baseline.entries, q.entries)
    case None => Err(ArithmeticOverflow(Entries))
    case Some(entriesWithQ) =>
    match CheckedAdd(entriesWithQ, k.entries)
    case None => Err(ArithmeticOverflow(Entries))
    case Some(entries) =>
    match CheckedAdd(baseline.bytes, q.bytes)
    case None => Err(ArithmeticOverflow(Bytes))
    case Some(bytesWithQ) =>
    match CheckedAdd(bytesWithQ, k.bytes)
    case None => Err(ArithmeticOverflow(Bytes))
    case Some(bytes) => Ok(RequiredCapacityPlan(WideResourceVector(entries, bytes)))
  }

  // The gate.

  datatype RefusalReason =
    | CapacityReason(dimension: ResourceDimension, required: U128, limit: U128)
    | RecoveryFence
    | DeliveredMarkerAwaitingAck
    | EpisodeChurnLimit

  /** The four operations the gate checks, by their request envelope. */
  type CheckedEnvelope = e: Envelope | e.ForEnrollment? || e.ForAttach? || e.ForLeave? || e.ForRecord?
    witness ForEnrollment(EnrollmentEnvelope(0, seq(16, _ => 0)))

  datatype ClosureRefusal = ClosureRefusal(request: CheckedEnvelope, snapshot: ClosureSnapshot, reason: RefusalReason)

  datatype FenceDecision = FenceEligible(accounting: ClosureAccounting) | FenceRespond(refusal: ClosureRefusal)

  function CheckRecoveryFence(request: CheckedEnvelope, a: ClosureAccounting, fence: bool): (d: FenceDecision)
    requires Valid(a)
  {
    if fence then FenceRespond(ClosureRefusal(request, Snapshot(a, 0), RecoveryFence)) else FenceEligible(a)
  }

  datatype GateDecision =
    | GateEligible(accounting: ClosureAccounting, plan: RequiredCapacityPlan, deltaCycles: U64)
    | GateRespond(refusal: ClosureRefusal)

  function CheckRemainingClosure(
    request: CheckedEnvelope, a: ClosureAccounting, deliveredMarkerAwaitingAck: bool, deltaCycles: U64,
    plan: RequiredCapacityPlan): (d: GateDecision)
    requires Valid(a)
  {
    var maximum := plan.maximum;
    if deliveredMarkerAwaitingAck then
      GateRespond(ClosureRefusal(request, Snapshot(a, 0), DeliveredMarkerAwaitingAck))
    else if a.churnUsed + deltaCycles > a.churnLimit then
      GateRespond(ClosureRefusal(request, Snapshot(a, deltaCycles), EpisodeChurnLimit))
    else if maximum.entries > a.cap.entries then
      GateRespond(ClosureRefusal(
        request, Snapshot(a, deltaCycles), CapacityReason(Entries, maximum.entries, a.cap.entries)))
    else if maximum.bytes > a.cap.bytes then
      GateRespond(ClosureRefusal(
        request, Snapshot(a, deltaCycles), CapacityReason(Bytes, maximum.bytes, a.cap.bytes)))
    else GateEligible(a, plan, deltaCycles)
  }

  /** Neither refusal charges anything: a fence and a waiting marker disclose the same accounting. */
  lemma UnchargedRefusalsAgree(request: CheckedEnvelope, a: ClosureAccounting, delta: U64, plan: RequiredCapacityPlan)
    requires Valid(a)
    ensures var fence := CheckRecoveryFence(request, a, true);
      var gate := CheckRemainingClosure(request, a, true, delta, plan);
      fence.FenceRespond? && gate.GateRespond? && gate.refusal.reason.DeliveredMarkerAwaitingAck? &&
      fence.refusal == gate.refusal.(reason := RecoveryFence) && fence.refusal.snapshot.deltaCycles == 0
    ensures CheckRecoveryFence(request, a, false).FenceEligible?
  {
  }

  /** Charging what a permit allows leaves a valid accounting, and one more cycle than fits is refused. */
  lemma ChargedAccountingStaysValid(
    request: CheckedEnvelope, a: ClosureAccounting, delta: U64, plan: RequiredCapacityPlan)
    requires Valid(a) && FitsCap(plan.maximum, a.cap)
    ensures CheckRemainingClosure(request, a, false, delta, plan).GateEligible? <==>
      a.churnUsed + delta <= U64_MAX && Valid(a.(churnUsed := a.churnUsed + delta))
  {
  }

  // The folded plan against its successors.

  predicate FitsCap(v: WideResourceVector, cap: ResourceVector) {
    v.entries <= cap.entries && v.bytes <= cap.bytes
  }

  /** The fold bounds every node in both dimensions and each component is attained by one of them. */
  lemma {:induction false} FoldIsMaximum(first: WideResourceVector, rest: seq<WideResourceVector>)
    ensures var m, nodes := FoldMaximum(first, rest), [first] + rest;
      (forall i :: 0 <= i < |nodes| ==> nodes[i].entries <= m.entries && nodes[i].bytes <= m.bytes) &&
      (exists i :: 0 <= i < |nodes| && nodes[i].entries == m.entries) &&
      (exists i :: 0 <= i < |nodes| && nodes[i].bytes == m.bytes)
    decreases |rest|
  {
    var nodes := [first] + rest;
    if rest == [] {
      assert nodes[0] == first;
    } else {
      var joined := WideResourceVector(Larger(first.entries, rest[0].entries), Larger(first.bytes, rest[0].bytes));
      FoldIsMaximum(joined, rest[1..]);
      var m, tail := FoldMaximum(joined, rest[1..]), [joined] + rest[1..];
      forall i | 0 <= i < |nodes|
        ensures nodes[i].entries <= m.entries && nodes[i].bytes <= m.bytes
      {
        var j := if i < 2 then 0 else i - 1;
        assert tail[j].entries <= m.entries && tail[j].bytes <= m.bytes;
      }
      var e: nat :| e < |tail| && tail[e].entries == m.entries;
      var b: nat :| b < |tail| && tail[b].bytes == m.bytes;
      assert nodes[if e > 0 then e + 1 else if first.entries >= rest[0].entries then 0 else 1].entries == m.entries;
      assert nodes[if b > 0 then b + 1 else if first.bytes >= rest[0].bytes then 0 else 1].bytes == m.bytes;
    }
  }

  /** Which dimension of the cap some successor first breaks, looking at every successor. */
  ghost predicate SomeOver(successors: seq<WideResourceVector>, cap: ResourceVector, d: ResourceDimension) {
    match d
    case Entries => exists i :: 0 <= i < |successors| && successors[i].entries > cap.entries
    case Bytes => exists i :: 0 <= i < |successors| && successors[i].bytes > cap.bytes
  }

  /** Only an empty plan is refused: it proves no coverage. */
  lemma EmptyPlanIsRefused(successors: seq<WideResourceVector>)
    ensures FromSuccessors(successors) == Err(EmptySuccessorSet) <==> successors == []
    ensures FromSuccessors(successors).Err? ==> successors == []
  {
  }

  lemma PlanFitsExactly(successors: seq<WideResourceVector>, cap: ResourceVector)
    requires successors != []
    ensures var m := FromSuccessors(successors).value.maximum;
      (m.entries > cap.entries <==> SomeOver(successors, cap, Entries)) &&
      (m.bytes > cap.bytes <==> SomeOver(successors, cap, Bytes))
  {
    FoldIsMaximum(successors[0], successors[1..]);
    assert [successors[0]] + successors[1..] == successors;
  }

  /** The gate passes exactly when no marker waits, churn fits and every successor fits in both dimensions. */
  lemma GateExact(
    request: CheckedEnvelope, a: ClosureAccounting, waiting: bool, delta: U64, successors: seq<WideResourceVector>)
    requires Valid(a) && successors != []
    ensures CheckRemainingClosure(request, a, waiting, delta, FromSuccessors(successors).value).GateEligible? <==>
      !waiting && a.churnUsed + delta <= a.churnLimit &&
      forall i :: 0 <= i < |successors| ==> FitsCap(successors[i], a.cap)
  {
    PlanFitsExactly(successors, a.cap);
  }

  /** A refusal names the first failing check; a capacity one reports the worst successor and the cap. */
  lemma GateRefusesFirst(
    request: CheckedEnvelope, a: ClosureAccounting, waiting: bool, delta: U64, successors: seq<WideResourceVector>)
    requires Valid(a) && successors != []
    requires CheckRemainingClosure(request, a, waiting, delta, FromSuccessors(successors).value).GateRespond?
    ensures var refusal := CheckRemainingClosure(request, a, waiting, delta, FromSuccessors(successors).value).refusal;
      refusal.request == request &&
      refusal.snapshot == Snapshot(a, if waiting then 0 else delta) &&
      match refusal.reason
      case DeliveredMarkerAwaitingAck => waiting
      case EpisodeChurnLimit => !waiting && a.churnUsed + delta > a.churnLimit
      case CapacityReason(Entries, required, limit) =>
        !waiting && a.churnUsed + delta <= a.churnLimit && required > limit == a.cap.entries &&
        (forall i :: 0 <= i < |successors| ==> successors[i].entries <= required) &&
        (exists i :: 0 <= i < |successors| && successors[i].entries == required)
      case CapacityReason(Bytes, required, limit) =>
        !waiting && a.churnUsed + delta <= a.churnLimit && !SomeOver(successors, a.cap, Entries) &&
        required > limit == a.cap.bytes &&
        (forall i :: 0 <= i < |successors| ==> successors[i].bytes <= required) &&
        (exists i :: 0 <= i < |successors| && successors[i].bytes == required)
      case RecoveryFence => false
  {
    FoldIsMaximum(successors[0], successors[1..]);
    assert [successors[0]] + successors[1..] == successors;
  }

  // The ordinary plan against zero-debt admission.

  /** When the ordinary plan exists, the gate's capacity verdict and dimension are zero-debt admission's. */
  lemma OrdinaryAgrees(
    request: CheckedEnvelope, a: ClosureAccounting, baseline: WideResourceVector, q: ResourceVector, k: ResourceVector)
    requires Valid(a) && Ordinary(baseline, q, k).Ok?
    ensures var d := CheckRemainingClosure(request, a, false, 0, Ordinary(baseline, q, k).value);
      match ZeroDebtCapacityFailure(baseline, q, k, a.cap)
      case None => d.GateEligible?
      case Some(dimension) =>
        d.GateRespond? && d.refusal.reason.CapacityReason? && d.refusal.reason.dimension == dimension
  {
    ChecksAreExact(baseline, q, k, a.cap);
  }

  /** When it overflows, zero-debt admission fails too, in the same dimension unless entries were over already. */
  lemma OverflowAgrees(baseline: WideResourceVector, q: ResourceVector, k: ResourceVector, cap: ResourceVector)
    requires Ordinary(baseline, q, k).Err?
    ensures Ordinary(baseline, q, k).error.ArithmeticOverflow? && ZeroDebtCapacityFailure(baseline, q, k, cap).Some?
    ensures ZeroDebtCapacityFailure(baseline, q, k, cap).value == Ordinary(baseline, q, k).error.overflowing <==>
      !(baseline.entries + q.entries + k.entries <= U128_MAX && baseline.entries + q.entries + k.entries > cap.entries)
  {
    ChecksAreExact(baseline, q, k, cap);
  }

  /** The two dimensions can differ: bytes overflow while entries are merely over the cap. */
  lemma OverflowDimensionCanDiffer()
    ensures var b, zero := WideResourceVector(1, U128_MAX), ResourceVector(0, 0);
      Ordinary(b, ResourceVector(0, 1), zero) == Err(ArithmeticOverflow(Bytes)) &&
      ZeroDebtCapacityFailure(b, ResourceVector(0, 1), zero, zero) == Some(Entries)
  {
  }
}
