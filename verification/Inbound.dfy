/** Correlating and applying one server value. */
module Inbound {
  import opened Outcomes
  import opened Wire
  import opened Participant
  import opened Correlations
  import opened Replays

  datatype InboundRefusal =
    | InboundAlreadyDead | ForeignResponse | DelayedResponse | AmbiguousResponse
    | MissingResponseAuthority | InboundLossPending

  datatype InboundDecision =
    | InboundApplied(aggregate: Aggregate)
    | InboundRefused(aggregate: Aggregate, reason: InboundRefusal)

  /** The identity and generation a retirement names. */
  function RetirementOf(value: Retired): (r: (U64, U64, Generation)) {
    match value
    case RetiredEnrollment(e, participant, generation) => (e.conversation, participant, generation)
    case RetiredParticipant(e, generation) => (e.Conversation(), e.Participant().value, generation)
  }

  function ApplyAttachReceipt(a: Aggregate, value: AttachBound, live: bool): (after: Aggregate) {
    var request, epoch := value.request, value.epoch;
    a.(binding :=
         if live then Bound(request.conversation, request.participant, epoch.generation, value.secret, epoch)
         else Detached(request.conversation, request.participant, epoch.generation, value.secret),
       replay := SupersedeByAttach(a.replay, value))
  }

  function ApplyEnrollment(a: Aggregate, value: EnrollBound): (after: Aggregate) {
    var epoch := value.epoch;
    a.(binding := Bound(value.request.conversation, value.participant, epoch.generation, value.secret, epoch))
  }

  /** The effect a correlated value has on binding and replay; the slot is already retired. */
  function ApplyCorrelatedValue(a: Aggregate, value: ServerValue): (after: Aggregate) {
    match value
    case EnrollBoundValue(e) => ApplyEnrollment(a, e)
    case BoundValue(EnrollmentReceipt(e)) => ApplyEnrollment(a, e)
    case AttachBoundValue(v) => ApplyAttachReceipt(a, v, true)
    case BoundValue(AttachReceipt(v)) => ApplyAttachReceipt(a, v, true)
    case UnboundReceipt(AttachReceipt(v)) => ApplyAttachReceipt(a, v, false)
    case DetachCommittedValue(d) =>
      if a.binding.Bound? || a.binding.Detached? then
        a.(binding := Detached(d.conversation, d.participant, d.epoch.generation, a.binding.secret),
           replay := TerminalizeWith(a.replay, CommittedOutcome(d)))
      else a
    case DetachInProgressValue(d) => a.(replay := TerminalizeWith(a.replay, InProgressOutcome(d)))
    case TerminalizedCellValue(cell) =>
      a.(replay := TerminalizeWith(a.replay, CellOutcome(cell)))
    case LeaveCommittedValue(l) =>
      a.(binding := Left(l.request.conversation, l.request.participant, l.request.generation),
         replay := SupersedeByLeave(a.replay, l))
    case RetiredValue(r) =>
      var (conversation, participant, generation) := RetirementOf(r);
      a.(binding := Left(conversation, participant, generation),
         replay := SupersedeByRetirement(a.replay, conversation, participant, generation))
    case _ => a
  }

  /** Retires the slot and settles whatever replay it was coupled to, in one step. */
  function RetireExpectedOperation(a: Aggregate, value: ServerValue): (after: Aggregate) {
    var applied := ApplyCorrelatedValue(a.(expected := None), value);
    if a.expected.Some? && a.expected.value.request.DetachRequest? then
      applied.(replay := SettleRefusedAuthority(applied.replay, a.expected.value.request.detach, value))
    else applied
  }

  /** Why an uncorrelated value is refused. */
  function MismatchReason(value: ServerValue, request: ClientRequest): (reason: InboundRefusal) {
    var sameClass :=
      OriginatingRequest(value) == Some(request.Class()) ||
      (request.ObserverRequest? &&
       (value.ObserverRecoveryAccepted? || value.InvalidObserverEpoch? || value.InvalidObserverEpochList?));
    if sameClass && SameIdentity(value, request) then
      if request.RecordRequest? then AmbiguousResponse else DelayedResponse
    else ForeignResponse
  }

  function DecideInboundInner(a: Aggregate, value: ServerValue, hasAuthority: bool): (d: InboundDecision)
    ensures d.InboundRefused? ==> d.aggregate == a
  {
    if a.binding.Left? then InboundRefused(a, InboundAlreadyDead)
    else if ParticipantAckAnswered(value).Some? then
      if a.binding.MatchesAck(ParticipantAckAnswered(value).value) then InboundApplied(a)
      else InboundRefused(a, ForeignResponse)
    else if value.ParticipantTransportRejected? then InboundApplied(a)
    else if a.expected.None? then InboundRefused(a, DelayedResponse)
    else if a.expected.value.lost.Some? then InboundRefused(a, InboundLossPending)
    else if !hasAuthority then InboundRefused(a, MissingResponseAuthority)
    else if !a.binding.AcceptsRequest(a.expected.value.request) then InboundRefused(a, ForeignResponse)
    else if !MatchesRequest(value, a.expected.value.request) then
      InboundRefused(a, MismatchReason(value, a.expected.value.request))
    else InboundApplied(RetireExpectedOperation(a, value))
  }

  /** The unsealed door. */
  function DecideInbound(a: Aggregate, value: ServerValue): (d: InboundDecision)
    ensures d.InboundRefused? ==> d.aggregate == a
  {
    DecideInboundInner(a, value, false)
  }

  predicate CurrentAuthority(a: Aggregate, correlation: Correlation) {
    a.expected.Some? && a.expected.value.issued && a.expected.value.authorization == correlation.authorization
  }

  /** The sealed door, presenting the one-use correlation. */
  function DecideCorrelatedInbound(a: Aggregate, value: ServerValue, correlation: Correlation): (d: InboundDecision)
    ensures d.InboundRefused? ==> d.aggregate == a
  {
    if !CurrentAuthority(a, correlation) then InboundRefused(a, DelayedResponse)
    else DecideInboundInner(a, value, true)
  }
}
