/** The write-ahead barrier: record, commit, release, recover and resolve one operation. */
module Barrier {
  import opened Outcomes
  import opened Wire
  import opened Participant
  import opened Replays

  datatype RecordRefusal =
    | OutstandingOperation | DetachReplayOutstanding | DetachReplayIncompatible | AbandonmentPending
    | BindingMismatch | AlreadyDead | AuthorizationExhausted

  /** A recorded operation whose successor is sealed until it commits or aborts. */
  datatype PendingRecord = PendingRecord(
    successor: Aggregate, operation: Operation, priorReplay: Option<DetachReplay>)

  datatype RecordDecision =
    | RecordPending(pending: PendingRecord)
    | RecordContinuous(aggregate: Aggregate, operation: Operation)
    | RecordRefused(aggregate: Aggregate, request: ClientRequest, reason: RecordRefusal)

  datatype ReplayAdmission =
    | Admitted(replay: DetachReplay, prior: Option<DetachReplay>)
    | NotAdmitted(reason: RecordRefusal)

  /** A detach enters the replay lifecycle in the same step that records it. */
  function AdmitDetachReplay(replay: DetachReplay, request: ClientRequest): (r: ReplayAdmission) {
    match request
    case DetachRequest(envelope) =>
      if replay.EmptyReplay? then Admitted(RecordedReplay(envelope, Parked), Some(replay))
      else if replay.request == envelope then
        if replay.status.Parked? then Admitted(replay, Some(replay)) else NotAdmitted(DetachReplayIncompatible)
      else if CanReplaceWith(replay, envelope) then Admitted(RecordedReplay(envelope, Parked), Some(replay))
      else NotAdmitted(DetachReplayOutstanding)
    case _ => Admitted(replay, None)
  }

  /** Aborting a pending record. */
  function AbortRecord(p: PendingRecord): (a: Aggregate) {
    var authorization := p.operation.authorization;
    p.successor.(
      expected := None,
      nextOperationAuthorization := if authorization == 0 then 0 else authorization - 1,
      replay := match p.priorReplay case Some(prior) => prior case None => p.successor.replay)
  }

  /** Recording either changes nothing or yields a record that aborting undoes exactly. */
  function RecordOperation(a: Aggregate, request: ClientRequest): (d: RecordDecision)
    ensures d.RecordPending? ==> AbortRecord(d.pending) == a
    ensures !d.RecordPending? ==> d.aggregate == a
  {
    if !a.binding.AcceptsRequest(request) then
      RecordRefused(a, request, if a.binding.Left? then AlreadyDead else BindingMismatch)
    else if request.AckRequest? then RecordContinuous(a, Operation(request, 0))
    else if a.expected.Some? then RecordRefused(a, request, OutstandingOperation)
    else if a.abandonment.Some? && request.ObserverRequest? then RecordRefused(a, request, AbandonmentPending)
    else if a.nextOperationAuthorization == U64_MAX then RecordRefused(a, request, AuthorizationExhausted)
    else
      match AdmitDetachReplay(a.replay, request)
      case NotAdmitted(reason) => RecordRefused(a, request, reason)
      case Admitted(replay, prior) =>
        var authorization: U64 := a.nextOperationAuthorization + 1;
        RecordPending(
          PendingRecord(
            a.(nextOperationAuthorization := authorization,
               replay := replay,
               expected := Some(ExpectedOperation(request, false, authorization, None))),
            Operation(request, authorization),
            prior))
  }

  /** Releasing a committed operation marks it issued, and its detach in flight. */
  function ReleaseCommitted(a: Aggregate, operation: Operation): (after: Aggregate) {
    a.(expected := match a.expected case Some(e) => Some(e.(issued := true)) case None => None,
       replay := if operation.request.DetachRequest? then MarkInitialAttemptStarted(a.replay) else a.replay)
  }

  datatype RecoverDecision =
    | Recovered(aggregate: Aggregate, operation: Operation)
    | RecoveryNotAvailable(aggregate: Aggregate, alreadyIssued: bool)

  function RecoverExpectedOperation(a: Aggregate): (d: RecoverDecision)
    ensures d.RecoveryNotAvailable? ==> d.aggregate == a
  {
    match a.expected
    case None => RecoveryNotAvailable(a, false)
    case Some(e) =>
      if e.issued then RecoveryNotAvailable(a, true)
      else
        Recovered(
          a.(expected := Some(e.(issued := true)),
             replay := if e.request.DetachRequest? then MarkInitialAttemptStarted(a.replay) else a.replay),
          Operation(e.request, e.authorization))
  }

  datatype ResolveDecision =
    | LossRecorded(aggregate: Aggregate, request: ClientRequest, testimony: LostAuthorityKind)
    | LossParked(aggregate: Aggregate, request: ClientRequest, testimony: LostAuthorityKind)
    | NoPendingTestimony(aggregate: Aggregate)

  /** The testimony is take-once: resolving again finds nothing and changes nothing. */
  function ResolveLostOperationAuthority(a: Aggregate): (d: ResolveDecision)
    ensures !d.aggregate.OperationLossPending()
    ensures d.NoPendingTestimony? ==> d.aggregate == a
  {
    if a.expected.None? || a.expected.value.lost.None? then NoPendingTestimony(a)
    else
      var e := a.expected.value;
      if e.request.DetachRequest? then
        LossParked(
          a.(expected := Some(e.(lost := None, issued := false)),
             replay := if a.replay.RecordedReplay? then a.replay.(status := Parked) else a.replay),
          e.request, e.lost.value)
      else
        LossRecorded(a.(expected := None), e.request, e.lost.value)
  }

  datatype FateRefusal = NoIssuedOperation | StaleCorrelation | DetachUsesReplayFate | FateLossPending

  datatype FateDecision =
    | FateRecorded(aggregate: Aggregate, request: ClientRequest)
    | FateRefused(aggregate: Aggregate, correlation: Correlation, reason: FateRefusal)

  function RecordExpectedOperationFate(a: Aggregate, correlation: Correlation): (d: FateDecision)
    ensures d.FateRefused? ==> d.aggregate == a && d.correlation == correlation
  {
    match a.expected
    case None => FateRefused(a, correlation, NoIssuedOperation)
    case Some(e) =>
      if !e.issued then FateRefused(a, correlation, NoIssuedOperation)
      else if e.lost.Some? then FateRefused(a, correlation, FateLossPending)
      else if e.authorization != correlation.authorization then FateRefused(a, correlation, StaleCorrelation)
      else if e.request.DetachRequest? then FateRefused(a, correlation, DetachUsesReplayFate)
      else FateRecorded(a.(expected := None), e.request)
  }

  function TakeAbandonment(a: Aggregate): (r: (Aggregate, Option<Abandonment>)) {
    (a.(abandonment := None), a.abandonment)
  }
}
