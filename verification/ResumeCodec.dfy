/**
 The canonical `LPCR` resume record. Encoders lay a section out in front of the bytes that
 follow it and decoders split a section off the front of what remains, so that the two are
 inverse section by section. The nested participant-frame codec is a parameter.
 */
module ResumeCodec {
  import opened Outcomes
  import opened Wire
  import opened Participant
  import opened Resume
  import opened Bytes

  // The nested frame codec.

  datatype CodecError =
    | NotParticipantFrame | MalformedFrame | UnsupportedFrameVersion
    | OutputTooSmall | FrameLengthOverflow | InvalidValue | InvalidFrameLimit

  datatype Frame = RequestFrame(request: ClientRequest) | ValueFrame(value: ServerValue) | PushFrame(push: Detail)

  datatype FrameCodec = FrameCodec(
    encode: Frame -> Result<seq<Byte>, CodecError>,
    decodeAtServer: seq<Byte> -> Result<Frame, CodecError>,
    decodeAtClient: seq<Byte> -> Result<Frame, CodecError>)

  /** Every frame the codec encodes decodes back to itself at its receiver. */
  ghost predicate RoundTrips(codec: FrameCodec) {
    (forall r :: codec.encode(RequestFrame(r)).Ok? ==>
       codec.decodeAtServer(codec.encode(RequestFrame(r)).value) == Ok(RequestFrame(r))) &&
    (forall v :: codec.encode(ValueFrame(v)).Ok? ==>
       codec.decodeAtClient(codec.encode(ValueFrame(v)).value) == Ok(ValueFrame(v)))
  }

  /** Every byte string the codec accepts is the encoding of the frame it yields. */
  ghost predicate Canonical(codec: FrameCodec) {
    (forall s :: codec.decodeAtServer(s).Ok? && codec.decodeAtServer(s).value.RequestFrame? ==>
       codec.encode(codec.decodeAtServer(s).value) == Ok(s)) &&
    (forall s :: codec.decodeAtClient(s).Ok? && codec.decodeAtClient(s).value.ValueFrame? ==>
       codec.encode(codec.decodeAtClient(s).value) == Ok(s))
  }

  // Errors.

  datatype Section = BindingSection | ExpectedSection | ReplaySection | ReconnectSection | AbandonmentSection

  datatype EncodeError =
    | EncodeNestedCodec(section: Section, source: CodecError)
    | LengthOverflow
    | DecoupledDetachReplay

  datatype DecodeError =
    | Truncated(needed: nat, remaining: nat)
    | InvalidMagic(presented: seq<Byte>)
    | UnsupportedVersion(version: seq<Byte>)
    | LengthMismatch(declared: U64, actual: nat)
    | InvalidTag(section: Section, tag: Byte)
    | DecodeNestedCodec(nested: Section, source: Option<CodecError>)
    | InvalidAbandonmentRequest(request: RequestClass)
    | TrailingBytes(trailing: nat)

  datatype Parsed<+T> = Parsed(value: T, rest: seq<Byte>)
  type Decoded<+T> = Result<Parsed<T>, DecodeError>

  const MAGIC: seq<Byte> := [0x4C, 0x50, 0x43, 0x52]
  const VERSION: seq<Byte> := [0, 1]

  // Primitives.

  function Take(s: seq<Byte>, length: nat): (r: Decoded<seq<Byte>>)
    ensures r.Ok? ==> |r.value.value| == length
  {
    if |s| < length then Err(Truncated(length, |s|)) else Ok(Parsed(s[..length], s[length..]))
  }

  lemma TakeIsCanonical(s: seq<Byte>, length: nat)
    requires Take(s, length).Ok?
    ensures s == Take(s, length).value.value + Take(s, length).value.rest
  {
  }

  function ReadU8(s: seq<Byte>): (r: Decoded<Byte>)
  {
    if |s| < 1 then Err(Truncated(1, |s|)) else Ok(Parsed(s[0], s[1..]))
  }

  lemma U8IsCanonical(s: seq<Byte>)
    requires ReadU8(s).Ok?
    ensures s == [ReadU8(s).value.value] + ReadU8(s).value.rest
  {
  }

  function PutU64(n: U64, tail: seq<Byte>): (s: seq<Byte>) {
    U64Bytes(n) + tail
  }

  function ReadU64(s: seq<Byte>): (r: Decoded<U64>)
  {
    var bytes :- Take(s, 8);
    Ok(Parsed(U64Of(bytes.value), bytes.rest))
  }

  lemma U64IsCanonical(s: seq<Byte>)
    requires ReadU64(s).Ok?
    ensures s == PutU64(ReadU64(s).value.value, ReadU64(s).value.rest)
  {
    TakeIsCanonical(s, 8);
    U64OfIsCanonical(Take(s, 8).value.value);
  }

  function ReadGeneration(s: seq<Byte>, section: Section): (r: Decoded<Generation>)
  {
    var n :- ReadU64(s);
    if n.value == 0 then Err(DecodeNestedCodec(section, None)) else Ok(Parsed(n.value as Generation, n.rest))
  }

  lemma GenerationIsCanonical(s: seq<Byte>, section: Section)
    requires ReadGeneration(s, section).Ok?
    ensures s == PutU64(ReadGeneration(s, section).value.value, ReadGeneration(s, section).value.rest)
  {
    U64IsCanonical(s);
  }

  /** Blobs carry their own length, which must fit the length field. */
  predicate BlobFits(bytes: seq<Byte>) {
    |bytes| <= U64_MAX
  }

  function PutBlob(bytes: seq<Byte>, tail: seq<Byte>): (s: seq<Byte>)
    requires BlobFits(bytes)
  {
    PutU64(|bytes|, bytes + tail)
  }

  function ReadBlob(s: seq<Byte>): (r: Decoded<seq<Byte>>)
  {
    var length :- ReadU64(s);
    Take(length.rest, length.value)
  }

  lemma BlobIsCanonical(s: seq<Byte>)
    requires ReadBlob(s).Ok?
    ensures var Parsed(blob, rest) := ReadBlob(s).value; BlobFits(blob) && s == PutBlob(blob, rest)
  {
    U64IsCanonical(s);
    TakeIsCanonical(ReadU64(s).value.rest, ReadU64(s).value.value);
  }

  lemma TakeFront(front: seq<Byte>, tail: seq<Byte>)
    ensures Take(front + tail, |front|) == Ok(Parsed(front, tail))
  {
    assert (front + tail)[..|front|] == front && (front + tail)[|front|..] == tail;
  }

  lemma ReadU8Front(tag: Byte, tail: seq<Byte>)
    ensures ReadU8([tag] + tail) == Ok(Parsed(tag, tail))
  {
    assert ([tag] + tail)[1..] == tail;
  }

  lemma ReadU64Front(n: U64, tail: seq<Byte>)
    ensures ReadU64(PutU64(n, tail)) == Ok(Parsed(n, tail))
  {
    TakeFront(U64Bytes(n), tail);
    U64RoundTrips(n);
  }

  lemma ReadBlobFront(bytes: seq<Byte>, tail: seq<Byte>)
    requires BlobFits(bytes)
    ensures ReadBlob(PutBlob(bytes, tail)) == Ok(Parsed(bytes, tail))
  {
    ReadU64Front(|bytes|, bytes + tail);
    TakeFront(bytes, tail);
  }

  // Tags.

  function BoolTag(b: bool): Byte { if b then 1 else 0 }

  function ReadBool(s: seq<Byte>, section: Section): (r: Decoded<bool>) {
    var tag :- ReadU8(s);
    if tag.value == 0 then Ok(Parsed(false, tag.rest))
    else if tag.value == 1 then Ok(Parsed(true, tag.rest))
    else Err(InvalidTag(section, tag.value))
  }

  lemma BoolIsCanonical(s: seq<Byte>, section: Section)
    requires ReadBool(s, section).Ok?
    ensures s == [BoolTag(ReadBool(s, section).value.value)] + ReadBool(s, section).value.rest
  {
    U8IsCanonical(s);
  }

  function TestimonyTag(lost: Option<LostAuthorityKind>): Byte {
    match lost
    case None => 0
    case Some(IssuedOperationCorrelation) => 1
    case Some(DetachTransportAttempt) => 2
    case Some(ReconnectPermit) => 3
    case Some(ReconnectAttempt) => 4
  }

  function ReadTestimony(s: seq<Byte>, section: Section): (r: Decoded<Option<LostAuthorityKind>>) {
    var tag :- ReadU8(s);
    if tag.value == 0 then Ok(Parsed(None, tag.rest))
    else if tag.value == 1 then Ok(Parsed(Some(IssuedOperationCorrelation), tag.rest))
    else if tag.value == 2 then Ok(Parsed(Some(DetachTransportAttempt), tag.rest))
    else if tag.value == 3 then Ok(Parsed(Some(ReconnectPermit), tag.rest))
    else if tag.value == 4 then Ok(Parsed(Some(ReconnectAttempt), tag.rest))
    else Err(InvalidTag(section, tag.value))
  }

  lemma TestimonyIsCanonical(s: seq<Byte>, section: Section)
    requires ReadTestimony(s, section).Ok?
    ensures s == [TestimonyTag(ReadTestimony(s, section).value.value)] + ReadTestimony(s, section).value.rest
  {
    U8IsCanonical(s);
  }

  function EventTag(event: FreshEvent): Byte {
    match event
    case TransportFate => 0
    case OnlineTransition => 1
    case ExplicitCallerAction => 2
  }

  function ReadEvent(s: seq<Byte>): (r: Decoded<FreshEvent>) {
    var tag :- ReadU8(s);
    if tag.value == 0 then Ok(Parsed(TransportFate, tag.rest))
    else if tag.value == 1 then Ok(Parsed(OnlineTransition, tag.rest))
    else if tag.value == 2 then Ok(Parsed(ExplicitCallerAction, tag.rest))
    else Err(InvalidTag(ReconnectSection, tag.value))
  }

  lemma EventIsCanonical(s: seq<Byte>)
    requires ReadEvent(s).Ok?
    ensures s == [EventTag(ReadEvent(s).value.value)] + ReadEvent(s).value.rest
  {
    U8IsCanonical(s);
  }

  // Binding.

  function PutEpoch(e: BindingEpoch, tail: seq<Byte>): (s: seq<Byte>) {
    PutU64(e.serverIncarnation, PutU64(e.connectionOrdinal, PutU64(e.generation, tail)))
  }

  function ReadEpoch(s: seq<Byte>): (r: Decoded<BindingEpoch>)
  {
    var server :- ReadU64(s);
    var ordinal :- ReadU64(server.rest);
    var generation :- ReadGeneration(ordinal.rest, BindingSection);
    Ok(Parsed(BindingEpoch(server.value, ordinal.value, generation.value), generation.rest))
  }

  lemma EpochIsCanonical(s: seq<Byte>)
    requires ReadEpoch(s).Ok?
    ensures s == PutEpoch(ReadEpoch(s).value.value, ReadEpoch(s).value.rest)
  {
    U64IsCanonical(s);
    var server := ReadU64(s).value;
    U64IsCanonical(server.rest);
    GenerationIsCanonical(ReadU64(server.rest).value.rest, BindingSection);
  }

  /** Conversation, participant and generation, as every bound state stores them. */
  function PutIdentity(conversation: U64, participant: U64, generation: Generation, tail: seq<Byte>): (s: seq<Byte>) {
    PutU64(conversation, PutU64(participant, PutU64(generation, tail)))
  }

  datatype Identity = Identity(conversation: U64, participant: U64, generation: Generation)

  function ReadIdentity(s: seq<Byte>, section: Section): (r: Decoded<Identity>)
  {
    var c :- ReadU64(s);
    var p :- ReadU64(c.rest);
    var g :- ReadGeneration(p.rest, section);
    Ok(Parsed(Identity(c.value, p.value, g.value), g.rest))
  }

  lemma IdentityIsCanonical(s: seq<Byte>, section: Section)
    requires ReadIdentity(s, section).Ok?
    ensures var Parsed(id, rest) := ReadIdentity(s, section).value;
      s == PutIdentity(id.conversation, id.participant, id.generation, rest)
  {
    U64IsCanonical(s);
    var c := ReadU64(s).value;
    U64IsCanonical(c.rest);
    GenerationIsCanonical(ReadU64(c.rest).value.rest, section);
  }

  function PutBinding(b: Binding, tail: seq<Byte>): (s: seq<Byte>) {
    match b
    case Unbound => [0] + tail
    case Bound(c, p, g, secret, epoch) => [1] + PutIdentity(c, p, g, secret + PutEpoch(epoch, tail))
    case Detached(c, p, g, secret) => [2] + PutIdentity(c, p, g, secret + tail)
    case Left(c, p, g) => [3] + PutIdentity(c, p, g, tail)
  }

  function ReadBinding(s: seq<Byte>): (r: Decoded<Binding>) {
    var tag :- ReadU8(s);
    if tag.value == 0 then Ok(Parsed(Unbound, tag.rest))
    else if tag.value > 3 then Err(InvalidTag(BindingSection, tag.value))
    else
      var id :- ReadIdentity(tag.rest, BindingSection);
      var Identity(c, p, g) := id.value;
      if tag.value == 3 then Ok(Parsed(Left(c, p, g), id.rest))
      else
        var secret :- Take(id.rest, 32);
        if tag.value == 2 then Ok(Parsed(Detached(c, p, g, secret.value), secret.rest))
        else
          var epoch :- ReadEpoch(secret.rest);
          Ok(Parsed(Bound(c, p, g, secret.value, epoch.value), epoch.rest))
  }

  lemma BindingIsCanonical(s: seq<Byte>)
    requires ReadBinding(s).Ok?
    ensures s == PutBinding(ReadBinding(s).value.value, ReadBinding(s).value.rest)
  {
    U8IsCanonical(s);
    var tag := ReadU8(s).value;
    if tag.value != 0 {
      IdentityIsCanonical(tag.rest, BindingSection);
      var id := ReadIdentity(tag.rest, BindingSection).value;
      if tag.value < 3 { TakeIsCanonical(id.rest, 32); }
      if tag.value == 1 { EpochIsCanonical(Take(id.rest, 32).value.rest); }
    }
  }

  lemma ReadEpochFront(e: BindingEpoch, tail: seq<Byte>)
    ensures ReadEpoch(PutEpoch(e, tail)) == Ok(Parsed(e, tail))
  {
    ReadU64Front(e.generation, tail);
    ReadU64Front(e.connectionOrdinal, PutU64(e.generation, tail));
    ReadU64Front(e.serverIncarnation, PutU64(e.connectionOrdinal, PutU64(e.generation, tail)));
  }

  lemma ReadIdentityFront(c: U64, p: U64, g: Generation, section: Section, tail: seq<Byte>)
    ensures ReadIdentity(PutIdentity(c, p, g, tail), section) == Ok(Parsed(Identity(c, p, g), tail))
  {
    ReadU64Front(g, tail);
    ReadU64Front(p, PutU64(g, tail));
    ReadU64Front(c, PutU64(p, PutU64(g, tail)));
  }

  /** Reading a credential part by part, wherever its bytes lie. */
  lemma ReadCredentialStepwise(
    b: Binding, s: seq<Byte>, afterTag: seq<Byte>, afterIdentity: seq<Byte>, afterSecret: seq<Byte>, tail: seq<Byte>)
    requires b.Bound? || b.Detached?
    requires ReadU8(s) == Ok(Parsed(if b.Bound? then 1 else 2, afterTag))
    requires ReadIdentity(afterTag, BindingSection) ==
      Ok(Parsed(Identity(b.conversation, b.participant, b.generation), afterIdentity))
    requires Take(afterIdentity, 32) == Ok(Parsed(b.secret, afterSecret))
    requires if b.Bound? then ReadEpoch(afterSecret) == Ok(Parsed(b.epoch, tail)) else afterSecret == tail
    ensures ReadBinding(s) == Ok(Parsed(b, tail))
  {
  }

  lemma ReadBoundFront(b: Binding, tail: seq<Byte>)
    requires b.Bound?
    ensures ReadBinding(PutBinding(b, tail)) == Ok(Parsed(b, tail))
  {
    var afterSecret := PutEpoch(b.epoch, tail);
    var afterIdentity := b.secret + afterSecret;
    var afterTag := PutIdentity(b.conversation, b.participant, b.generation, afterIdentity);
    ReadU8Front(1, afterTag);
    ReadIdentityFront(b.conversation, b.participant, b.generation, BindingSection, afterIdentity);
    TakeFront(b.secret, afterSecret);
    ReadEpochFront(b.epoch, tail);
    ReadCredentialStepwise(b, [1] + afterTag, afterTag, afterIdentity, afterSecret, tail);
  }

  lemma ReadDetachedFront(b: Binding, tail: seq<Byte>)
    requires b.Detached?
    ensures ReadBinding(PutBinding(b, tail)) == Ok(Parsed(b, tail))
  {
    var afterIdentity := b.secret + tail;
    var afterTag := PutIdentity(b.conversation, b.participant, b.generation, afterIdentity);
    ReadU8Front(2, afterTag);
    ReadIdentityFront(b.conversation, b.participant, b.generation, BindingSection, afterIdentity);
    TakeFront(b.secret, tail);
    ReadCredentialStepwise(b, [2] + afterTag, afterTag, afterIdentity, tail, tail);
  }

  lemma ReadLeftFront(b: Binding, tail: seq<Byte>)
    requires b.Left?
    ensures ReadBinding(PutBinding(b, tail)) == Ok(Parsed(b, tail))
  {
    ReadU8Front(3, PutIdentity(b.conversation, b.participant, b.generation, tail));
    ReadIdentityFront(b.conversation, b.participant, b.generation, BindingSection, tail);
  }

  lemma ReadBindingFront(b: Binding, tail: seq<Byte>)
    ensures ReadBinding(PutBinding(b, tail)) == Ok(Parsed(b, tail))
  {
    match b
    case Unbound => ReadU8Front(0, tail);
    case Bound(_, _, _, _, _) => ReadBoundFront(b, tail);
    case Detached(_, _, _, _) => ReadDetachedFront(b, tail);
    case Left(_, _, _) => ReadLeftFront(b, tail);
  }

  // Expected operation; its frame is encoded beforehand.

  function PutExpected(expected: Option<ExpectedOperation>, frame: seq<Byte>, tail: seq<Byte>): (s: seq<Byte>)
    requires BlobFits(frame)
  {
    match expected
    case None => [0] + tail
    case Some(e) =>
      [1] + ([BoolTag(e.issued)] + PutU64(e.authorization, [TestimonyTag(e.lost)] + PutBlob(frame, tail)))
  }

  function ReadRequest(codec: FrameCodec, bytes: seq<Byte>, section: Section): (r: Result<ClientRequest, DecodeError>)
    ensures r.Ok? <==> codec.decodeAtServer(bytes).Ok? && codec.decodeAtServer(bytes).value.RequestFrame?
    ensures r.Ok? ==> codec.decodeAtServer(bytes) == Ok(RequestFrame(r.value))
  {
    match codec.decodeAtServer(bytes)
    case Ok(RequestFrame(request)) => Ok(request)
    case Ok(_) => Err(DecodeNestedCodec(section, None))
    case Err(source) => Err(DecodeNestedCodec(section, Some(source)))
  }

  function ReadExpected(codec: FrameCodec, s: seq<Byte>): (r: Decoded<Option<ExpectedOperation>>) {
    var tag :- ReadU8(s);
    if tag.value == 0 then Ok(Parsed(None, tag.rest))
    else if tag.value != 1 then Err(InvalidTag(ExpectedSection, tag.value))
    else
      var issued :- ReadBool(tag.rest, ExpectedSection);
      var authorization :- ReadU64(issued.rest);
      var lost :- ReadTestimony(authorization.rest, ExpectedSection);
      var frame :- ReadBlob(lost.rest);
      var request :- ReadRequest(codec, frame.value, ExpectedSection);
      Ok(Parsed(Some(ExpectedOperation(request, issued.value, authorization.value, lost.value)), frame.rest))
  }

  // Detach replay.

  function StatusTag(status: ReplayStatus): Byte {
    match status
    case Parked => 1
    case InFlight => 2
    case Superseded => 3
    case LeaveSuperseded => 4
    case Terminal(CommittedTerminal(_)) => 5
    case Terminal(InProgressTerminal(_)) => 6
    case Terminal(CellTerminal(_)) => 7
    case Terminal(RefusedTerminal(_)) => 8
  }

  /** The server value a terminal is stored as. */
  function TerminalValue(terminal: ReplayTerminal): (value: ServerValue) {
    match terminal
    case CommittedTerminal(d) => DetachCommittedValue(d)
    case InProgressTerminal(d) => DetachInProgressValue(d)
    case CellTerminal(d) => TerminalizedCellValue(d)
    case RefusedTerminal(value) => value
  }

  /** The three values that answer a detach and therefore have tags of their own. */
  predicate Answering(value: ServerValue) {
    value.DetachCommittedValue? || value.DetachInProgressValue? || value.TerminalizedCellValue?
  }

  function PutDetach(request: DetachEnvelope, tail: seq<Byte>): (s: seq<Byte>) {
    PutIdentity(request.conversation, request.participant, request.generation, request.token + tail)
  }

  function ReadDetach(s: seq<Byte>): (r: Decoded<DetachEnvelope>)
  {
    var id :- ReadIdentity(s, ReplaySection);
    var token :- Take(id.rest, 16);
    var Identity(conversation, participant, generation) := id.value;
    Ok(Parsed(DetachEnvelope(conversation, participant, generation, token.value), token.rest))
  }

  lemma DetachIsCanonical(s: seq<Byte>)
    requires ReadDetach(s).Ok?
    ensures s == PutDetach(ReadDetach(s).value.value, ReadDetach(s).value.rest)
  {
    IdentityIsCanonical(s, ReplaySection);
    TakeIsCanonical(ReadIdentity(s, ReplaySection).value.rest, 16);
  }

  lemma ReadDetachFront(request: DetachEnvelope, tail: seq<Byte>)
    ensures ReadDetach(PutDetach(request, tail)) == Ok(Parsed(request, tail))
  {
    var DetachEnvelope(c, p, g, token) := request;
    ReadIdentityFront(c, p, g, ReplaySection, token + tail);
    TakeFront(token, tail);
  }

  /** What follows the retained detach: the terminal's frame, when there is one. */
  function PutStatus(status: ReplayStatus, frame: seq<Byte>, tail: seq<Byte>): (s: seq<Byte>)
    requires BlobFits(frame)
  {
    if status.Terminal? then PutBlob(frame, tail) else tail
  }

  function PutReplay(replay: DetachReplay, frame: seq<Byte>, tail: seq<Byte>): (s: seq<Byte>)
    requires BlobFits(frame)
  {
    match replay
    case EmptyReplay => [0] + tail
    case RecordedReplay(request, status) =>
      [StatusTag(status)] + PutDetach(request, PutStatus(status, frame, tail))
  }

  /** The terminal a tag and a decoded value name together, when they agree. */
  function TerminalOf(tag: Byte, value: ServerValue): (r: Option<ReplayTerminal>)
    ensures r.Some? ==> StatusTag(Terminal(r.value)) == tag && TerminalValue(r.value) == value
    ensures r.Some? && r.value.RefusedTerminal? ==> !Answering(r.value.refusal)
  {
    if tag == 5 && value.DetachCommittedValue? then Some(CommittedTerminal(value.committedDetach))
    else if tag == 6 && value.DetachInProgressValue? then Some(InProgressTerminal(value.pendingDetach))
    else if tag == 7 && value.TerminalizedCellValue? then Some(CellTerminal(value.cell))
    else if tag == 8 && !Answering(value) then Some(RefusedTerminal(value))
    else None
  }

  /** Exactly which terminals a tag and a value name: none when a refusal would hide an answer. */
  lemma TerminalOfExactly(tag: Byte, value: ServerValue, terminal: ReplayTerminal)
    ensures TerminalOf(tag, value) == Some(terminal) <==>
      StatusTag(Terminal(terminal)) == tag && TerminalValue(terminal) == value &&
      !(terminal.RefusedTerminal? && Answering(terminal.refusal))
  {
  }

  function ReadTerminal(codec: FrameCodec, s: seq<Byte>, tag: Byte): (r: Decoded<ReplayTerminal>) {
    var frame :- ReadBlob(s);
    match codec.decodeAtClient(frame.value)
    case Ok(ValueFrame(value)) =>
      (match TerminalOf(tag, value)
       case Some(terminal) => Ok(Parsed(terminal, frame.rest))
       case None => Err(DecodeNestedCodec(ReplaySection, None)))
    case Ok(_) => Err(DecodeNestedCodec(ReplaySection, None))
    case Err(source) => Err(DecodeNestedCodec(ReplaySection, Some(source)))
  }

  function ReadStatus(codec: FrameCodec, s: seq<Byte>, tag: Byte): (r: Decoded<ReplayStatus>)
    requires 1 <= tag <= 8
  {
    if tag >= 5 then
      var terminal :- ReadTerminal(codec, s, tag);
      Ok(Parsed(Terminal(terminal.value), terminal.rest))
    else
      Ok(Parsed(
        if tag == 1 then Parked else if tag == 2 then InFlight
        else if tag == 3 then Superseded else LeaveSuperseded, s))
  }

  function ReadReplay(codec: FrameCodec, s: seq<Byte>): (r: Decoded<DetachReplay>) {
    var tag :- ReadU8(s);
    if tag.value == 0 then Ok(Parsed(EmptyReplay, tag.rest))
    else if tag.value > 8 then Err(InvalidTag(ReplaySection, tag.value))
    else
      var request :- ReadDetach(tag.rest);
      var status :- ReadStatus(codec, request.rest, tag.value);
      Ok(Parsed(RecordedReplay(request.value, status.value), status.rest))
  }

  // Reconnect.

  function PutReconnectState(state: ReconnectState, tail: seq<Byte>): (s: seq<Byte>) {
    match state
    case ReconnectParked => [0] + tail
    case PermitOutstanding(n, event, issued) => [1] + PutU64(n, [EventTag(event)] + ([BoolTag(issued)] + tail))
    case AttemptInProgress(n, event) => [2] + PutU64(n, [EventTag(event)] + tail)
    case Online => [3] + tail
  }

  function ReadReconnectState(s: seq<Byte>): (r: Decoded<ReconnectState>) {
    var tag :- ReadU8(s);
    if tag.value == 0 then Ok(Parsed(ReconnectParked, tag.rest))
    else if tag.value == 3 then Ok(Parsed(Online, tag.rest))
    else if tag.value > 3 then Err(InvalidTag(ReconnectSection, tag.value))
    else
      var n :- ReadU64(tag.rest);
      var event :- ReadEvent(n.rest);
      if tag.value == 2 then Ok(Parsed(AttemptInProgress(n.value, event.value), event.rest))
      else
        var issued :- ReadBool(event.rest, ReconnectSection);
        Ok(Parsed(PermitOutstanding(n.value, event.value, issued.value), issued.rest))
  }

  lemma ReconnectStateIsCanonical(s: seq<Byte>)
    requires ReadReconnectState(s).Ok?
    ensures s == PutReconnectState(ReadReconnectState(s).value.value, ReadReconnectState(s).value.rest)
  {
    U8IsCanonical(s);
    var tag := ReadU8(s).value;
    if tag.value == 1 || tag.value == 2 {
      U64IsCanonical(tag.rest);
      var n := ReadU64(tag.rest).value;
      EventIsCanonical(n.rest);
      if tag.value == 1 { BoolIsCanonical(ReadEvent(n.rest).value.rest, ReconnectSection); }
    }
  }

  function PutReconnect(r: Reconnect, tail: seq<Byte>): (s: seq<Byte>) {
    PutU64(r.nextAuthorization, PutReconnectState(r.state, [TestimonyTag(r.lost)] + tail))
  }

  function ReadReconnect(s: seq<Byte>): (r: Decoded<Reconnect>)
  {
    var next :- ReadU64(s);
    var state :- ReadReconnectState(next.rest);
    var lost :- ReadTestimony(state.rest, ReconnectSection);
    Ok(Parsed(Reconnect(state.value, next.value, lost.value), lost.rest))
  }

  lemma ReconnectIsCanonical(s: seq<Byte>)
    requires ReadReconnect(s).Ok?
    ensures s == PutReconnect(ReadReconnect(s).value.value, ReadReconnect(s).value.rest)
  {
    U64IsCanonical(s);
    var next := ReadU64(s).value;
    ReconnectStateIsCanonical(next.rest);
    TestimonyIsCanonical(ReadReconnectState(next.rest).value.rest, ReconnectSection);
  }

  lemma ReadPermitFront(n: U64, event: FreshEvent, issued: bool, tail: seq<Byte>)
    ensures ReadReconnectState(PutReconnectState(PermitOutstanding(n, event, issued), tail)) ==
      Ok(Parsed(PermitOutstanding(n, event, issued), tail))
  {
    var afterEvent := [BoolTag(issued)] + tail;
    ReadU8Front(1, PutU64(n, [EventTag(event)] + afterEvent));
    ReadU64Front(n, [EventTag(event)] + afterEvent);
    ReadU8Front(EventTag(event), afterEvent);
    ReadU8Front(BoolTag(issued), tail);
  }

  lemma ReadReconnectStateFront(state: ReconnectState, tail: seq<Byte>)
    ensures ReadReconnectState(PutReconnectState(state, tail)) == Ok(Parsed(state, tail))
  {
    match state
    case ReconnectParked =>
      ReadU8Front(0, tail);
    case Online =>
      ReadU8Front(3, tail);
    case PermitOutstanding(n, event, issued) =>
      ReadPermitFront(n, event, issued, tail);
    case AttemptInProgress(n, event) =>
      ReadU8Front(2, PutU64(n, [EventTag(event)] + tail));
      ReadU64Front(n, [EventTag(event)] + tail);
      ReadU8Front(EventTag(event), tail);
  }

  lemma ReadReconnectFront(r: Reconnect, tail: seq<Byte>)
    ensures ReadReconnect(PutReconnect(r, tail)) == Ok(Parsed(r, tail))
  {
    var afterState := [TestimonyTag(r.lost)] + tail;
    ReadU64Front(r.nextAuthorization, PutReconnectState(r.state, afterState));
    ReadReconnectStateFront(r.state, afterState);
    ReadU8Front(TestimonyTag(r.lost), tail);
  }

  // Abandonment.

  function PutAbandonment(abandonment: Option<Abandonment>, frame: seq<Byte>, tail: seq<Byte>): (s: seq<Byte>)
    requires BlobFits(frame)
  {
    match abandonment
    case None => [0] + tail
    case Some(a) => [1] + ([0] + ([BoolTag(a.wasIssued)] + PutBlob(frame, tail)))
  }

  function ReadAbandonment(codec: FrameCodec, s: seq<Byte>): (r: Decoded<Option<Abandonment>>) {
    var tag :- ReadU8(s);
    if tag.value == 0 then Ok(Parsed(None, tag.rest))
    else if tag.value != 1 then Err(InvalidTag(AbandonmentSection, tag.value))
    else
      var reason :- ReadU8(tag.rest);
      if reason.value != 0 then Err(InvalidTag(AbandonmentSection, reason.value))
      else
        var issued :- ReadBool(reason.rest, AbandonmentSection);
        var frame :- ReadBlob(issued.rest);
        var request :- ReadRequest(codec, frame.value, AbandonmentSection);
        if request.ObserverRequest? then
          Ok(Parsed(Some(Abandonment(request, TokenlessAfterCrash, issued.value)), frame.rest))
        else Err(InvalidAbandonmentRequest(request.Class()))
  }

  // The whole record.

  /** The nested frames of a record; absent ones are empty. */
  datatype Frames = Frames(expected: seq<Byte>, replay: seq<Byte>, abandonment: seq<Byte>)

  predicate FramesFit(frames: Frames) {
    BlobFits(frames.expected) && BlobFits(frames.replay) && BlobFits(frames.abandonment)
  }

  function EncodeFrame(codec: FrameCodec, frame: Frame, section: Section): (r: Result<seq<Byte>, EncodeError>)
    ensures r.Ok? <==> codec.encode(frame).Ok? && BlobFits(codec.encode(frame).value)
    ensures r.Ok? ==> codec.encode(frame) == Ok(r.value)
  {
    match codec.encode(frame)
    case Err(source) => Err(EncodeNestedCodec(section, source))
    case Ok(bytes) => if BlobFits(bytes) then Ok(bytes) else Err(LengthOverflow)
  }

  function ExpectedFrame(codec: FrameCodec, expected: Option<ExpectedOperation>): (r: Result<seq<Byte>, EncodeError>)
    ensures r.Ok? ==> BlobFits(r.value)
  {
    match expected
    case None => Ok([])
    case Some(e) => EncodeFrame(codec, RequestFrame(e.request), ExpectedSection)
  }

  function ReplayFrame(codec: FrameCodec, replay: DetachReplay): (r: Result<seq<Byte>, EncodeError>)
    ensures r.Ok? ==> BlobFits(r.value)
  {
    if replay.RecordedReplay? && replay.status.Terminal?
    then EncodeFrame(codec, ValueFrame(TerminalValue(replay.status.terminal)), ReplaySection)
    else Ok([])
  }

  function AbandonmentFrame(codec: FrameCodec, abandonment: Option<Abandonment>): (r: Result<seq<Byte>, EncodeError>)
    ensures r.Ok? ==> BlobFits(r.value)
  {
    match abandonment
    case None => Ok([])
    case Some(a) => EncodeFrame(codec, RequestFrame(a.request), AbandonmentSection)
  }

  function EncodeFrames(codec: FrameCodec, a: Aggregate): (r: Result<Frames, EncodeError>)
    ensures r.Ok? ==> FramesFit(r.value)
  {
    var expected :- ExpectedFrame(codec, a.expected);
    var replay :- ReplayFrame(codec, a.replay);
    var abandonment :- AbandonmentFrame(codec, a.abandonment);
    Ok(Frames(expected, replay, abandonment))
  }

  function Payload(a: Aggregate, frames: Frames): (s: seq<Byte>)
    requires FramesFit(frames)
  {
    PutBinding(a.binding,
      PutU64(a.nextOperationAuthorization,
        PutExpected(a.expected, frames.expected,
          PutReplay(a.replay, frames.replay,
            PutReconnect(a.reconnect,
              PutAbandonment(a.abandonment, frames.abandonment, []))))))
  }

  function EncodeAggregate(codec: FrameCodec, a: Aggregate): (r: Result<seq<Byte>, EncodeError>) {
    var frames :- EncodeFrames(codec, a);
    var payload := Payload(a, frames);
    if BlobFits(payload) then Ok(MAGIC + (VERSION + PutU64(|payload|, payload))) else Err(LengthOverflow)
  }

  function ReadSections(codec: FrameCodec, s: seq<Byte>): (r: Decoded<Aggregate>) {
    var binding :- ReadBinding(s);
    var next :- ReadU64(binding.rest);
    var expected :- ReadExpected(codec, next.rest);
    var replay :- ReadReplay(codec, expected.rest);
    var reconnect :- ReadReconnect(replay.rest);
    var abandonment :- ReadAbandonment(codec, reconnect.rest);
    Ok(Parsed(
         Aggregate(binding.value, expected.value, next.value, replay.value, reconnect.value, abandonment.value),
         abandonment.rest))
  }

  function DecodeFacts(codec: FrameCodec, input: seq<Byte>): (r: Result<Aggregate, DecodeError>) {
    var magic :- Take(input, 4);
    if magic.value != MAGIC then Err(InvalidMagic(magic.value))
    else
      var version :- Take(magic.rest, 2);
      if version.value != VERSION then Err(UnsupportedVersion(version.value))
      else
        var declared :- ReadU64(version.rest);
        if declared.value != |declared.rest| then Err(LengthMismatch(declared.value, |declared.rest|))
        else
          var facts :- ReadSections(codec, declared.rest);
          if facts.rest != [] then Err(TrailingBytes(|facts.rest|)) else Ok(facts.value)
  }

  /** The live write side refuses a decoupled aggregate before encoding it. */
  function ResumeRecord(codec: FrameCodec, a: Aggregate): (r: Result<seq<Byte>, EncodeError>) {
    if !LiveReplayCoupled(a) then Err(DecoupledDetachReplay) else EncodeAggregate(codec, a)
  }

  datatype RestoreFailure = CorruptRecord(decode: DecodeError) | InvariantBroken(restore: RestoreError)

  function Restore(codec: FrameCodec, bytes: seq<Byte>): (r: Result<Aggregate, RestoreFailure>) {
    match DecodeFacts(codec, bytes)
    case Err(error) => Err(CorruptRecord(error))
    case Ok(facts) =>
      match RestoreFacts(facts)
      case Err(error) => Err(InvariantBroken(error))
      case Ok(a) => Ok(a)
  }
}
