/**
 The client participant aggregate: binding, the one write-ahead operation slot, the detach
 replay, the reconnect machine and the durable loss atoms.
 */
module Participant {
  import opened Outcomes
  import opened Wire

  datatype Binding =
    | Unbound
    | Bound(conversation: U64, participant: U64, generation: Generation, secret: Secret, epoch: BindingEpoch)
    | Detached(conversation: U64, participant: U64, generation: Generation, secret: Secret)
    | Left(conversation: U64, participant: U64, generation: Generation)
  {
    predicate MatchesIdentity(
      conversationId: U64, participantId: U64, presented: Generation, allowDetached: bool)
    {
      (Bound? || (Detached? && allowDetached)) &&
      (conversation, participant, generation) == (conversationId, participantId, presented)
    }

    predicate MatchesCredential(
      conversationId: U64, participantId: U64, presented: Generation, presentedSecret: Secret,
      allowDetached: bool)
    {
      (Bound? || (Detached? && allowDetached)) &&
      secret == presentedSecret &&
      MatchesIdentity(conversationId, participantId, presented, allowDetached)
    }

    predicate MatchesAck(ack: AckEnvelope) {
      Bound? && conversation == ack.conversation && participant == ack.participant &&
      generation == ack.generation
    }

    /** Whether a request is legal for the retained identity, credential and state. */
    predicate AcceptsRequest(request: ClientRequest) {
      !Left? &&
      match request
      case EnrollmentRequest(_) => Unbound?
      case AttachRequest(e, presented) =>
        Unbound? || MatchesCredential(e.conversation, e.participant, e.generation, presented, true)
      case DetachRequest(e) => MatchesIdentity(e.conversation, e.participant, e.generation, false)
      case AckRequest(e) => MatchesIdentity(e.conversation, e.participant, e.generation, false)
      case LeaveRequest(e, presented) =>
        MatchesCredential(e.conversation, e.participant, e.generation, presented, true)
      case MarkerAckRequest(e) => MatchesIdentity(e.conversation, e.participant, e.generation, false)
      case RecordRequest(e, _) => MatchesIdentity(e.conversation, e.participant, e.generation, false)
      case ObserverRequest(_) => true
    }
  }

  /** What a request presents of the binding it was formed under: identity, generation and any secret. */
  function Presents(request: ClientRequest): Option<(U64, U64, Generation, Option<Secret>)> {
    match request
    case AttachRequest(e, secret) => Some((e.conversation, e.participant, e.generation, Some(secret)))
    case DetachRequest(e) => Some((e.conversation, e.participant, e.generation, None))
    case AckRequest(e) => Some((e.conversation, e.participant, e.generation, None))
    case LeaveRequest(e, secret) => Some((e.conversation, e.participant, e.generation, Some(secret)))
    case MarkerAckRequest(e) => Some((e.conversation, e.participant, e.generation, None))
    case RecordRequest(e, _) => Some((e.conversation, e.participant, e.generation, None))
    case EnrollmentRequest(_) => None
    case ObserverRequest(_) => None
  }

  /**
   A live binding accepts exactly observer recovery and the requests that present its own
   identity, generation and secret; a detached one, of those, only the ones with a secret.
   */
  lemma LiveBindingAcceptsExactly(b: Binding, request: ClientRequest)
    requires b.Bound? || b.Detached?
    ensures b.AcceptsRequest(request) <==>
      request.ObserverRequest? ||
      (Presents(request).Some? &&
       var (conversation, participant, generation, secret) := Presents(request).value;
       (conversation, participant, generation) == (b.conversation, b.participant, b.generation) &&
       (secret.Some? ==> secret.value == b.secret) && (b.Detached? ==> secret.Some?))
  {
  }

  /** A binding answers for an acknowledgement exactly when it would send it. */
  lemma MatchesAckExactly(b: Binding, ack: AckEnvelope)
    ensures b.MatchesAck(ack) <==> !b.Unbound? && b.AcceptsRequest(AckRequest(ack))
  {
  }

  /** Before any binding only enrollment, attach and observer recovery may be recorded; after leaving, nothing. */
  lemma OtherBindingsAcceptExactly(b: Binding, request: ClientRequest)
    requires b.Unbound? || b.Left?
    ensures b.AcceptsRequest(request) <==>
      b.Unbound? && request.Class() in {EnrollmentClass, AttachClass, ObserverClass}
  {
  }

  datatype LostAuthorityKind =
    | IssuedOperationCorrelation | DetachTransportAttempt | ReconnectPermit | ReconnectAttempt

  datatype ExpectedOperation = ExpectedOperation(
    request: ClientRequest, issued: bool, authorization: U64, lost: Option<LostAuthorityKind>)

  datatype AbandonmentReason = TokenlessAfterCrash

  datatype Abandonment = Abandonment(request: ClientRequest, reason: AbandonmentReason, wasIssued: bool)

  datatype ReplayTerminal =
    | CommittedTerminal(committed: DetachCommitted)
    | InProgressTerminal(pending: DetachInProgress)
    | CellTerminal(cell: TerminalizedDetachCell)
    | RefusedTerminal(refusal: ServerValue)

  datatype ReplayStatus = Parked | InFlight | Superseded | LeaveSuperseded | Terminal(terminal: ReplayTerminal)

  datatype DetachReplay = EmptyReplay | RecordedReplay(request: DetachEnvelope, status: ReplayStatus)
  {
    /** Whether the replay still expects a transport attempt or an answer. */
    predicate IsActive() {
      RecordedReplay? && (status.Parked? || status.InFlight?)
    }
  }

  datatype FreshEvent = TransportFate | OnlineTransition | ExplicitCallerAction

  datatype ReconnectState =
    | ReconnectParked
    | PermitOutstanding(authorization: U64, event: FreshEvent, issued: bool)
    | AttemptInProgress(authorization: U64, event: FreshEvent)
    | Online

  datatype Reconnect = Reconnect(
    state: ReconnectState, nextAuthorization: U64, lost: Option<LostAuthorityKind>)

  datatype Aggregate = Aggregate(
    binding: Binding,
    expected: Option<ExpectedOperation>,
    nextOperationAuthorization: U64,
    replay: DetachReplay,
    reconnect: Reconnect,
    abandonment: Option<Abandonment>)
  {
    predicate OperationLossPending() {
      expected.Some? && expected.value.lost.Some?
    }
  }

  /** The fresh aggregate every run starts from. */
  const FRESH: Aggregate :=
    Aggregate(Unbound, None, 0, EmptyReplay, Reconnect(ReconnectParked, 0, None), None)

  /** Send authority released by the durability barrier. */
  datatype Operation = Operation(request: ClientRequest, authorization: U64)

  /** Send authority released by the detach replay. */
  datatype TransportAttempt = TransportAttempt(request: DetachEnvelope, authorization: U64)

  /** One-use response authority, left once the request has been sent. */
  datatype Correlation = Correlation(authorization: U64)

  /** Only observer recovery carries no attempt identity a server could deduplicate on. */
  predicate Tokenless(request: ClientRequest) {
    request.ObserverRequest?
  }

  /** The kind of operation-domain loss a request's issued authority leaves behind. */
  function OperationLossKind(request: ClientRequest): LostAuthorityKind {
    if request.DetachRequest? then DetachTransportAttempt else IssuedOperationCorrelation
  }

  /** The reconnect-domain loss a machine state's released authority would leave behind. */
  function ReconnectLossKind(state: ReconnectState): Option<LostAuthorityKind> {
    match state
    case PermitOutstanding(_, _, true) => Some(ReconnectPermit)
    case AttemptInProgress(_, _) => Some(ReconnectAttempt)
    case _ => None
  }
}
