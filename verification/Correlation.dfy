/** Assigning a server value to the one outstanding request it may answer. */
module Correlations {
  import opened Outcomes
  import opened Wire

  datatype RequestKey = Unsolicited | ObserverKey(authorization: U64) | IdentityKey(envelope: Envelope)
  {
    predicate SameIdentity(other: RequestKey) {
      match (this, other)
      case (ObserverKey(_), ObserverKey(_)) => true
      case (IdentityKey(l), IdentityKey(r)) =>
        l.Class() == r.Class() && l.Conversation() == r.Conversation() && l.Participant() == r.Participant()
      case (_, _) => false
    }
  }

  function KeyOfRequest(request: ClientRequest, authorization: U64): (key: RequestKey) {
    match request.Identity()
    case Some(e) => IdentityKey(e)
    case None => ObserverKey(authorization)
  }

  function ResponseKey(value: ServerValue, ambiguousAuthorization: U64): (key: RequestKey) {
    match EchoedEnvelope(value)
    case Some(e) => IdentityKey(e)
    case None => if ObserverFamily(value) then ObserverKey(ambiguousAuthorization) else Unsolicited
  }

  predicate ObserverFamily(value: ServerValue) {
    value.ObserverRecoveryAccepted? || value.InvalidObserverEpoch? ||
    value.InvalidObserverEpochList? || value.ObserverRecoveryCapacityExceeded?
  }

  predicate SettlementRefusal(value: ServerValue) {
    value.AttachSettlementBackpressure? || value.DetachSettlementBackpressure? ||
    value.EnrollmentSettlementBackpressure?
  }

  /** Settlement refusals carry no request identity: they correlate by family and conversation. */
  function SettlementMatches(value: ServerValue, request: ClientRequest): (matched: Option<bool>) {
    match value
    case AttachSettlementBackpressure(conversation, _) =>
      Some(request.AttachRequest? && request.attach.conversation == conversation)
    case DetachSettlementBackpressure(conversation, _) =>
      Some(request.DetachRequest? && request.detach.conversation == conversation)
    case EnrollmentSettlementBackpressure(conversation) =>
      Some(request.EnrollmentRequest? && request.enrollment.conversation == conversation)
    case _ => None
  }

  predicate ObserverResponseMatches(value: ServerValue, refusals: seq<ObserverRefusal>) {
    match value
    case ObserverRecoveryAccepted(statuses) =>
      |statuses| == |refusals| &&
      forall i :: 0 <= i < |statuses| ==>
        statuses[i].conversation == refusals[i].conversation &&
        statuses[i].refusedEpoch == refusals[i].refusedEpoch
    case InvalidObserverEpoch(conversation, epoch, _) =>
      |refusals| == 1 && refusals[0].conversation == conversation && refusals[0].refusedEpoch == epoch
    case _ => false
  }

  /** Whether the wire identity of a value names a request. */
  predicate MatchesRequest(value: ServerValue, request: ClientRequest) {
    match request
    case ObserverRequest(refusals) => ObserverResponseMatches(value, refusals)
    case _ =>
      match SettlementMatches(value, request)
      case Some(matched) => matched
      case None => ResponseKey(value, 0) == KeyOfRequest(request, 0)
  }

  predicate SameIdentity(value: ServerValue, request: ClientRequest) {
    ResponseKey(value, 0).SameIdentity(KeyOfRequest(request, 0))
  }

  /** The continuous acknowledgement a value answers, when it answers one. */
  function ParticipantAckAnswered(value: ServerValue): (ack: Option<AckEnvelope>) {
    if value.AckAnswer? then Some(value.ack) else None
  }

  /** Values applied beside the slot: continuous-acknowledgement answers and transport rejections. */
  predicate BypassesSlot(value: ServerValue) {
    ParticipantAckAnswered(value).Some? || value.ParticipantTransportRejected?
  }

  /**
   Correlation in closed form: outside observer recovery a value names a request exactly when
   it echoes that request's identity, or is a settlement refusal of its family and conversation.
   */
  lemma MatchesExactly(value: ServerValue, request: ClientRequest)
    requires !request.ObserverRequest?
    ensures MatchesRequest(value, request) <==>
      (SettlementRefusal(value) &&
       OriginatingRequest(value) == Some(request.Class()) &&
       value.conversation == request.Identity().value.Conversation()) ||
      (EchoedEnvelope(value).Some? && EchoedEnvelope(value) == request.Identity())
  {
    assert SettlementRefusal(value) ==> EchoedEnvelope(value).None?;
  }

  /** The refusals a list of statuses answers, in order. */
  function AnsweredRefusals(statuses: seq<ObserverStatus>): seq<ObserverRefusal> {
    if statuses == [] then []
    else
      [ObserverRefusal(statuses[0].conversation, statuses[0].refusedEpoch)] + AnsweredRefusals(statuses[1..])
  }

  lemma {:induction false} AnsweredAt(statuses: seq<ObserverStatus>)
    ensures |AnsweredRefusals(statuses)| == |statuses|
    ensures forall i :: 0 <= i < |statuses| ==>
      AnsweredRefusals(statuses)[i] == ObserverRefusal(statuses[i].conversation, statuses[i].refusedEpoch)
    decreases |statuses|
  {
    if statuses != [] { AnsweredAt(statuses[1..]); }
  }

  /** Statuses for exactly its refusals in order answer observer recovery, or an invalid epoch of its only one. */
  lemma ObserverMatchesExactly(value: ServerValue, refusals: seq<ObserverRefusal>)
    ensures MatchesRequest(value, ObserverRequest(refusals)) <==>
      (value.ObserverRecoveryAccepted? && AnsweredRefusals(value.statuses) == refusals) ||
      (value.InvalidObserverEpoch? && refusals == [ObserverRefusal(value.invalidConversation, value.presentedEpoch)])
  {
    if value.ObserverRecoveryAccepted? {
      AnsweredAt(value.statuses);
      if MatchesRequest(value, ObserverRequest(refusals)) {
        assert AnsweredRefusals(value.statuses) == refusals;
      }
    }
  }

  /** Every receipt names the request it was granted for, bound or released. */
  lemma ReceiptsNameTheirRequest(e: EnrollBound, v: AttachBound, secret: Secret)
    ensures MatchesRequest(EnrollBoundValue(e), EnrollmentRequest(e.request))
    ensures MatchesRequest(BoundValue(EnrollmentReceipt(e)), EnrollmentRequest(e.request))
    ensures MatchesRequest(UnboundReceipt(EnrollmentReceipt(e)), EnrollmentRequest(e.request))
    ensures MatchesRequest(AttachBoundValue(v), AttachRequest(v.request, secret))
    ensures MatchesRequest(BoundValue(AttachReceipt(v)), AttachRequest(v.request, secret))
    ensures MatchesRequest(UnboundReceipt(AttachReceipt(v)), AttachRequest(v.request, secret))
  {
  }

  /** Every answer to a detach or a leave names the request it carries. */
  lemma AnswersNameTheirRequest(
    d: DetachCommitted, p: DetachInProgress, cell: TerminalizedDetachCell, l: LeaveCommitted, secret: Secret)
    ensures var detach := DetachEnvelope(d.conversation, d.participant, d.epoch.generation, d.token);
      MatchesRequest(DetachCommittedValue(d), DetachRequest(detach))
    ensures MatchesRequest(DetachInProgressValue(p), DetachRequest(p.request))
    ensures MatchesRequest(TerminalizedCellValue(cell), DetachRequest(cell.request))
    ensures MatchesRequest(LeaveCommittedValue(l), LeaveRequest(l.request, secret))
  {
  }

  /** An echo or a retirement names every request of the identity it echoes, and no other. */
  lemma EchoesNameTheirRequest(echo: Echo, retired: Generation, participant: U64, request: ClientRequest)
    requires request.Identity() == Some(echo.request)
    ensures MatchesRequest(EchoValue(echo), request)
    ensures request.EnrollmentRequest? ==>
      MatchesRequest(RetiredValue(RetiredEnrollment(request.enrollment, participant, retired)), request)
    ensures !request.EnrollmentRequest? ==>
      MatchesRequest(RetiredValue(RetiredParticipant(echo.request, retired)), request)
  {
  }

  /** A value that bypasses the slot names no request the slot can hold. */
  lemma BypassNamesNoSlottedRequest(value: ServerValue, request: ClientRequest)
    requires BypassesSlot(value) && !request.AckRequest?
    ensures !MatchesRequest(value, request)
  {
  }

  /** No non-settlement value can name two requests of different identity. */
  lemma OneIdentityPerValue(value: ServerValue, first: ClientRequest, second: ClientRequest)
    requires !SettlementRefusal(value)
    requires MatchesRequest(value, first) && MatchesRequest(value, second)
    ensures first.Identity() == second.Identity()
  {
    assert ObserverFamily(value) ==> EchoedEnvelope(value).None?;
    if !first.ObserverRequest? { MatchesExactly(value, first); }
    if !second.ObserverRequest? { MatchesExactly(value, second); }
  }
}
