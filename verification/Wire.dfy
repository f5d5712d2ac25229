/** Optional values and results, shared by every module. */
module Outcomes {
  datatype Option<+T> = None | Some(value: T)

  datatype Result<+T, +E> = Ok(value: T) | Err(error: E) {
    predicate IsFailure() { Err? }

    function PropagateFailure<U>(): Result<U, E>
      requires Err?
    {
      Err(error)
    }

    function Extract(): T
      requires Ok?
    {
      value
    }
  }
}

/**
 The participant wire vocabulary as the client reads it: requests, the envelopes that
 responses echo, and every server value. Fields the client never reads are kept whole in
 an opaque `detail`, so that two values are equal exactly when the wire values are.
 */
module Wire {
  import opened Outcomes

  type Byte = b: int | 0 <= b < 0x100
  type U64 = n: int | 0 <= n < 0x1_0000_0000_0000_0000
  type Generation = n: int | 1 <= n < 0x1_0000_0000_0000_0000 witness 1
  type Token = s: seq<Byte> | |s| == 16 witness seq(16, _ => 0)
  type Secret = s: seq<Byte> | |s| == 32 witness seq(32, _ => 0)
  type Detail = seq<Byte>

  const U64_MAX: U64 := 0xFFFF_FFFF_FFFF_FFFF

  datatype BindingEpoch = BindingEpoch(
    serverIncarnation: U64,
    connectionOrdinal: U64,
    generation: Generation)

  // Response envelopes: the request identity a response echoes (no secret, no payload).

  datatype EnrollmentEnvelope = EnrollmentEnvelope(conversation: U64, token: Token)

  datatype AttachEnvelope = AttachEnvelope(
    conversation: U64, participant: U64, generation: Generation, token: Token, marker: Option<U64>)

  datatype DetachEnvelope = DetachEnvelope(
    conversation: U64, participant: U64, generation: Generation, token: Token)

  datatype AckEnvelope = AckEnvelope(
    conversation: U64, participant: U64, generation: Generation, throughSeq: U64)

  datatype LeaveEnvelope = LeaveEnvelope(
    conversation: U64, participant: U64, generation: Generation, token: Token)

  datatype MarkerAckEnvelope = MarkerAckEnvelope(
    conversation: U64, participant: U64, generation: Generation, markerSeq: U64)

  datatype RecordEnvelope = RecordEnvelope(
    conversation: U64, participant: U64, generation: Generation, token: Token)

  datatype Envelope =
    | ForEnrollment(enrollment: EnrollmentEnvelope)
    | ForAttach(attach: AttachEnvelope)
    | ForDetach(detach: DetachEnvelope)
    | ForAck(ack: AckEnvelope)
    | ForLeave(leave: LeaveEnvelope)
    | ForMarkerAck(markerAck: MarkerAckEnvelope)
    | ForRecord(record: RecordEnvelope)
  {
    function Class(): RequestClass {
      match this
      case ForEnrollment(_) => EnrollmentClass
      case ForAttach(_) => AttachClass
      case ForDetach(_) => DetachClass
      case ForAck(_) => AckClass
      case ForLeave(_) => LeaveClass
      case ForMarkerAck(_) => MarkerAckClass
      case ForRecord(_) => RecordClass
    }

    function Conversation(): U64 {
      match this
      case ForEnrollment(e) => e.conversation
      case ForAttach(e) => e.conversation
      case ForDetach(e) => e.conversation
      case ForAck(e) => e.conversation
      case ForLeave(e) => e.conversation
      case ForMarkerAck(e) => e.conversation
      case ForRecord(e) => e.conversation
    }

    /** The participant an envelope names; an enrollment names none. */
    function Participant(): Option<U64> {
      match this
      case ForEnrollment(_) => None
      case ForAttach(e) => Some(e.participant)
      case ForDetach(e) => Some(e.participant)
      case ForAck(e) => Some(e.participant)
      case ForLeave(e) => Some(e.participant)
      case ForMarkerAck(e) => Some(e.participant)
      case ForRecord(e) => Some(e.participant)
    }
  }

  datatype RequestClass =
    | EnrollmentClass | AttachClass | DetachClass | AckClass
    | LeaveClass | MarkerAckClass | RecordClass | ObserverClass

  /** The envelopes that name a participant. */
  type ParticipantReference = e: Envelope | !e.ForEnrollment?
    witness ForDetach(DetachEnvelope(0, 0, 1, seq(16, _ => 0)))

  // Requests.

  datatype ObserverRefusal = ObserverRefusal(conversation: U64, refusedEpoch: U64)

  datatype ClientRequest =
    | EnrollmentRequest(enrollment: EnrollmentEnvelope)
    | AttachRequest(attach: AttachEnvelope, attachSecret: Secret)
    | DetachRequest(detach: DetachEnvelope)
    | AckRequest(ack: AckEnvelope)
    | LeaveRequest(leave: LeaveEnvelope, leaveSecret: Secret)
    | MarkerAckRequest(markerAck: MarkerAckEnvelope)
    | RecordRequest(record: RecordEnvelope, payload: seq<Byte>)
    | ObserverRequest(refusals: seq<ObserverRefusal>)
  {
    function Class(): RequestClass {
      match this
      case EnrollmentRequest(_) => EnrollmentClass
      case AttachRequest(_, _) => AttachClass
      case DetachRequest(_) => DetachClass
      case AckRequest(_) => AckClass
      case LeaveRequest(_, _) => LeaveClass
      case MarkerAckRequest(_) => MarkerAckClass
      case RecordRequest(_, _) => RecordClass
      case ObserverRequest(_) => ObserverClass
    }

    /** The identity a response to this request echoes; observer recovery has none. */
    function Identity(): Option<Envelope> {
      match this
      case EnrollmentRequest(e) => Some(ForEnrollment(e))
      case AttachRequest(e, _) => Some(ForAttach(e))
      case DetachRequest(e) => Some(ForDetach(e))
      case AckRequest(e) => Some(ForAck(e))
      case LeaveRequest(e, _) => Some(ForLeave(e))
      case MarkerAckRequest(e) => Some(ForMarkerAck(e))
      case RecordRequest(e, _) => Some(ForRecord(e))
      case ObserverRequest(_) => None
    }
  }

  // Server values.

  /** An enrollment receipt always carries generation one. */
  datatype EnrollBoundFields = EnrollBoundFields(
    request: EnrollmentEnvelope, participant: U64, secret: Secret, epoch: BindingEpoch, detail: Detail)
  type EnrollBound = e: EnrollBoundFields | e.epoch.generation == 1
    witness EnrollBoundFields(
              EnrollmentEnvelope(0, seq(16, _ => 0)), 0, seq(32, _ => 0), BindingEpoch(0, 0, 1), [])

  /** An attach receipt always grants the exact successor of the presented generation. */
  datatype AttachBoundFields = AttachBoundFields(
    request: AttachEnvelope, secret: Secret, epoch: BindingEpoch, detail: Detail)
  type AttachBound = a: AttachBoundFields | a.epoch.generation == a.request.generation + 1
    witness AttachBoundFields(
              AttachEnvelope(0, 0, 1, seq(16, _ => 0), None), seq(32, _ => 0), BindingEpoch(0, 0, 2), [])

  datatype ReceiptReplay = EnrollmentReceipt(enrolled: EnrollBound) | AttachReceipt(attached: AttachBound)

  datatype DetachCommitted = DetachCommitted(
    conversation: U64, participant: U64, token: Token, epoch: BindingEpoch, deliverySeq: U64)
  {
    /** The detach this result answers; its generation is the ended epoch's. */
    function Request(): DetachEnvelope {
      DetachEnvelope(conversation, participant, epoch.generation, token)
    }
  }

  datatype DetachInProgress = DetachInProgress(request: DetachEnvelope, epoch: BindingEpoch)

  datatype TerminalizedDetachCell = TerminalizedDetachCell(request: DetachEnvelope, detail: Detail)

  /** `request.generation` is both the presented and the retired generation. */
  datatype LeaveCommitted = LeaveCommitted(request: LeaveEnvelope, detail: Detail)

  /**
   The values that echo their request and change nothing the client retains. Each kind admits
   exactly the request classes its wire schema has an arm for.
   */
  datatype EchoKind =
    | AttemptTokenBodyConflict | ConnectionCapacityExceeded | BindingOccupied | OrderExhausted
    | ParticipantUnknown | NoBinding | StaleAuthority | StaleLeaveTombstone
    | MarkerClosureCapacityExceeded | EnrollmentKnown | ReceiptExpired | ReceiptCapacityExceeded
    | IdentityCapacityExceeded | ObserverBackpressure | SequenceExhausted | StaleOrUnknownReceipt
    | MarkerNotDelivered | MarkerMismatch | MarkerAckNoOp | MarkerAckCommitted
    | RecordCommitted | RecordTooLarge

  predicate Admits(kind: EchoKind, e: Envelope) {
    match kind
    case AttemptTokenBodyConflict => e.ForAttach? || e.ForLeave? || e.ForRecord?
    case ConnectionCapacityExceeded => true
    case BindingOccupied => e.ForEnrollment? || e.ForAttach?
    case OrderExhausted => e.ForEnrollment? || e.ForAttach? || e.ForRecord?
    case ParticipantUnknown => !e.ForEnrollment?
    case NoBinding => !e.ForEnrollment? && !e.ForAttach?
    case StaleAuthority => !e.ForEnrollment?
    case StaleLeaveTombstone => e.ForLeave?
    case MarkerClosureCapacityExceeded => e.ForEnrollment? || e.ForAttach? || e.ForLeave? || e.ForRecord?
    case EnrollmentKnown => e.ForEnrollment?
    case ReceiptExpired => e.ForEnrollment? || e.ForAttach?
    case ReceiptCapacityExceeded => e.ForEnrollment? || e.ForAttach?
    case IdentityCapacityExceeded => e.ForEnrollment?
    case ObserverBackpressure => !e.ForAck? && !e.ForMarkerAck?
    case SequenceExhausted => e.ForEnrollment? || e.ForAttach? || e.ForRecord?
    case StaleOrUnknownReceipt => e.ForAttach?
    case MarkerNotDelivered => e.ForMarkerAck? || (e.ForAttach? && e.attach.marker.Some?)
    case MarkerMismatch => e.ForMarkerAck? || (e.ForAttach? && e.attach.marker.Some?)
    case MarkerAckNoOp => e.ForMarkerAck?
    case MarkerAckCommitted => e.ForMarkerAck?
    case RecordCommitted => e.ForRecord?
    case RecordTooLarge => e.ForRecord?
  }

  datatype EchoFields = EchoFields(kind: EchoKind, request: Envelope, detail: Detail)
  type Echo = e: EchoFields | Admits(e.kind, e.request)
    witness EchoFields(ConnectionCapacityExceeded, ForAck(AckEnvelope(0, 0, 1, 0)), [])

  datatype AckAnswerKind = AckCommitted | AckNoOp | AckGap | AckRegression

  datatype Retired =
    | RetiredEnrollment(enrollment: EnrollmentEnvelope, participant: U64, retiredGeneration: Generation)
    | RetiredParticipant(request: ParticipantReference, retiredGeneration: Generation)

  datatype ObserverStatus = ObserverStatus(conversation: U64, refusedEpoch: U64, detail: Detail)

  datatype ServerValue =
    | ParticipantTransportRejected(rejection: Detail)
    | EchoValue(echo: Echo)
    | AckAnswer(answer: AckAnswerKind, ack: AckEnvelope, ackDetail: Detail)
    | EnrollBoundValue(enrolled: EnrollBound)
    | AttachBoundValue(attached: AttachBound)
    | BoundValue(bound: ReceiptReplay)
    | UnboundReceipt(released: ReceiptReplay)
    | DetachCommittedValue(committedDetach: DetachCommitted)
    | DetachInProgressValue(pendingDetach: DetachInProgress)
    | TerminalizedCellValue(cell: TerminalizedDetachCell)
    | LeaveCommittedValue(left: LeaveCommitted)
    | RetiredValue(retired: Retired)
    | ObserverRecoveryCapacityExceeded(conversation: U64, limit: U64)
    | ObserverRecoveryAccepted(statuses: seq<ObserverStatus>)
    | InvalidObserverEpoch(invalidConversation: U64, presentedEpoch: U64, epochDetail: Detail)
    | InvalidObserverEpochList(listDetail: Detail)
    | AttachSettlementBackpressure(conversation: U64, refusedEpoch: U64)
    | DetachSettlementBackpressure(conversation: U64, refusedEpoch: U64)
    | EnrollmentSettlementBackpressure(conversation: U64)

  /** The request identity a value carries on the wire, when it carries one. */
  function EchoedEnvelope(value: ServerValue): (echoed: Option<Envelope>) {
    match value
    case EchoValue(echo) => Some(echo.request)
    case AckAnswer(_, ack, _) => Some(ForAck(ack))
    case EnrollBoundValue(receipt) => Some(ForEnrollment(receipt.request))
    case AttachBoundValue(receipt) => Some(ForAttach(receipt.request))
    case BoundValue(receipt) => Some(ReceiptEnvelope(receipt))
    case UnboundReceipt(receipt) => Some(ReceiptEnvelope(receipt))
    case DetachCommittedValue(d) => Some(ForDetach(d.Request()))
    case DetachInProgressValue(d) => Some(ForDetach(d.request))
    case TerminalizedCellValue(cell) => Some(ForDetach(cell.request))
    case LeaveCommittedValue(l) => Some(ForLeave(l.request))
    case RetiredValue(RetiredEnrollment(e, _, _)) => Some(ForEnrollment(e))
    case RetiredValue(RetiredParticipant(e, _)) => Some(e)
    case _ => None
  }

  /** The request class a value structurally originates from, when it has one. */
  function OriginatingRequest(value: ServerValue): (origin: Option<RequestClass>) {
    match value
    case AttachSettlementBackpressure(_, _) => Some(AttachClass)
    case DetachSettlementBackpressure(_, _) => Some(DetachClass)
    case EnrollmentSettlementBackpressure(_) => Some(EnrollmentClass)
    case _ => match EchoedEnvelope(value) case Some(e) => Some(e.Class()) case None => None
  }

  function ReceiptEnvelope(receipt: ReceiptReplay): Envelope {
    match receipt
    case EnrollmentReceipt(e) => ForEnrollment(e.request)
    case AttachReceipt(a) => ForAttach(a.request)
  }
}
