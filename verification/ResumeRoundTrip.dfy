/** One state, one encoding: decoding inverts encoding, and encoding inverts decoding. */
module ResumeRoundTrip {
  import opened Outcomes
  import opened Wire
  import opened Participant
  import opened Bytes
  import opened ResumeCodec

  /** What a record can represent beyond the types: the two restrictions the decoder enforces. */
  predicate Representable(a: Aggregate) {
    (a.abandonment.Some? ==> a.abandonment.value.request.ObserverRequest?) &&
    RepresentableReplay(a.replay)
  }

  predicate RepresentableReplay(replay: DetachReplay) {
    replay.RecordedReplay? && replay.status.Terminal? && replay.status.terminal.RefusedTerminal? ==>
      !Answering(replay.status.terminal.refusal)
  }

  // Decoding what was encoded.

  /** Reading a slot field by field, wherever its bytes lie. */
  lemma ReadExpectedStepwise(
    codec: FrameCodec, e: ExpectedOperation, s: seq<Byte>, afterTag: seq<Byte>, afterIssued: seq<Byte>,
    afterAuthorization: seq<Byte>, afterLost: seq<Byte>, frame: seq<Byte>, tail: seq<Byte>)
    requires RoundTrips(codec) && codec.encode(RequestFrame(e.request)) == Ok(frame)
    requires ReadU8(s) == Ok(Parsed(1, afterTag))
    requires ReadU8(afterTag) == Ok(Parsed(BoolTag(e.issued), afterIssued))
    requires ReadU64(afterIssued) == Ok(Parsed(e.authorization, afterAuthorization))
    requires ReadU8(afterAuthorization) == Ok(Parsed(TestimonyTag(e.lost), afterLost))
    requires ReadBlob(afterLost) == Ok(Parsed(frame, tail))
    ensures ReadExpected(codec, s) == Ok(Parsed(Some(e), tail))
  {
  }

  lemma ReadExpectedFront(codec: FrameCodec, expected: Option<ExpectedOperation>, frame: seq<Byte>, tail: seq<Byte>)
    requires RoundTrips(codec) && ExpectedFrame(codec, expected) == Ok(frame)
    ensures ReadExpected(codec, PutExpected(expected, frame, tail)) == Ok(Parsed(expected, tail))
  {
    match expected
    case None =>
      ReadU8Front(0, tail);
    case Some(e) =>
      var afterLost := PutBlob(frame, tail);
      var afterAuthorization := [TestimonyTag(e.lost)] + afterLost;
      var afterIssued := PutU64(e.authorization, afterAuthorization);
      var afterTag := [BoolTag(e.issued)] + afterIssued;
      ReadU8Front(1, afterTag);
      ReadU8Front(BoolTag(e.issued), afterIssued);
      ReadU64Front(e.authorization, afterAuthorization);
      ReadU8Front(TestimonyTag(e.lost), afterLost);
      ReadBlobFront(frame, tail);
      ReadExpectedStepwise(
        codec, e, [1] + afterTag, afterTag, afterIssued, afterAuthorization, afterLost, frame, tail);
  }

  lemma ReadTerminalFront(codec: FrameCodec, terminal: ReplayTerminal, frame: seq<Byte>, tail: seq<Byte>)
    requires RoundTrips(codec)
    requires EncodeFrame(codec, ValueFrame(TerminalValue(terminal)), ReplaySection) == Ok(frame)
    ensures ReadTerminal(codec, PutBlob(frame, tail), StatusTag(Terminal(terminal))) ==
      if terminal.RefusedTerminal? && Answering(terminal.refusal) then Err(DecodeNestedCodec(ReplaySection, None))
      else Ok(Parsed(terminal, tail))
  {
    ReadBlobFront(frame, tail);
  }

  lemma ReadStatusFront(codec: FrameCodec, replay: DetachReplay, frame: seq<Byte>, tail: seq<Byte>)
    requires RoundTrips(codec) && replay.RecordedReplay? && ReplayFrame(codec, replay) == Ok(frame)
    ensures ReadStatus(codec, PutStatus(replay.status, frame, tail), StatusTag(replay.status)) ==
      if RepresentableReplay(replay) then Ok(Parsed(replay.status, tail))
      else Err(DecodeNestedCodec(ReplaySection, None))
  {
    if replay.status.Terminal? { ReadTerminalFront(codec, replay.status.terminal, frame, tail); }
  }

  /** Reading a replay part by part, wherever its bytes lie. */
  lemma ReadReplayStepwise(
    codec: FrameCodec, replay: DetachReplay, s: seq<Byte>, afterTag: seq<Byte>, afterRequest: seq<Byte>,
    status: Decoded<ReplayStatus>)
    requires replay.RecordedReplay?
    requires ReadU8(s) == Ok(Parsed(StatusTag(replay.status), afterTag))
    requires ReadDetach(afterTag) == Ok(Parsed(replay.request, afterRequest))
    requires ReadStatus(codec, afterRequest, StatusTag(replay.status)) == status
    ensures ReadReplay(codec, s) ==
      match status
      case Ok(parsed) => Ok(Parsed(RecordedReplay(replay.request, parsed.value), parsed.rest))
      case Err(error) => Err(error)
  {
  }

  lemma ReadReplayFront(codec: FrameCodec, replay: DetachReplay, frame: seq<Byte>, tail: seq<Byte>)
    requires RoundTrips(codec) && ReplayFrame(codec, replay) == Ok(frame)
    ensures ReadReplay(codec, PutReplay(replay, frame, tail)) ==
      if RepresentableReplay(replay) then Ok(Parsed(replay, tail)) else Err(DecodeNestedCodec(ReplaySection, None))
  {
    match replay
    case EmptyReplay =>
      ReadU8Front(0, tail);
    case RecordedReplay(request, status) =>
      var afterRequest := PutStatus(status, frame, tail);
      var afterTag := PutDetach(request, afterRequest);
      ReadU8Front(StatusTag(status), afterTag);
      ReadDetachFront(request, afterRequest);
      ReadStatusFront(codec, replay, frame, tail);
      ReadReplayStepwise(
        codec, replay, [StatusTag(status)] + afterTag, afterTag, afterRequest,
        ReadStatus(codec, afterRequest, StatusTag(status)));
  }

  lemma ReadAbandonmentFront(codec: FrameCodec, abandonment: Option<Abandonment>, frame: seq<Byte>, tail: seq<Byte>)
    requires RoundTrips(codec) && AbandonmentFrame(codec, abandonment) == Ok(frame)
    ensures ReadAbandonment(codec, PutAbandonment(abandonment, frame, tail)) ==
      if abandonment.Some? && !abandonment.value.request.ObserverRequest?
      then Err(InvalidAbandonmentRequest(abandonment.value.request.Class()))
      else Ok(Parsed(abandonment, tail))
  {
    match abandonment
    case None =>
      ReadU8Front(0, tail);
    case Some(a) =>
      match a.reason case TokenlessAfterCrash =>
      var afterReason := [BoolTag(a.wasIssued)] + PutBlob(frame, tail);
      ReadU8Front(1, [0] + afterReason);
      ReadU8Front(0, afterReason);
      ReadU8Front(BoolTag(a.wasIssued), PutBlob(frame, tail));
      ReadBlobFront(frame, tail);
  }

  /** The sections of a payload decode to the aggregate exactly when it is representable. */
  lemma ReadSectionsOfPayload(codec: FrameCodec, a: Aggregate, frames: Frames)
    requires RoundTrips(codec) && EncodeFrames(codec, a) == Ok(frames)
    ensures Representable(a) ==> ReadSections(codec, Payload(a, frames)) == Ok(Parsed(a, []))
    ensures !Representable(a) ==> ReadSections(codec, Payload(a, frames)).Err?
  {
    var abandonmentBytes := PutAbandonment(a.abandonment, frames.abandonment, []);
    var reconnectBytes := PutReconnect(a.reconnect, abandonmentBytes);
    var replayBytes := PutReplay(a.replay, frames.replay, reconnectBytes);
    var expectedBytes := PutExpected(a.expected, frames.expected, replayBytes);
    ReadBindingFront(a.binding, PutU64(a.nextOperationAuthorization, expectedBytes));
    ReadU64Front(a.nextOperationAuthorization, expectedBytes);
    ReadExpectedFront(codec, a.expected, frames.expected, replayBytes);
    ReadReplayFront(codec, a.replay, frames.replay, reconnectBytes);
    ReadReconnectFront(a.reconnect, abandonmentBytes);
    ReadAbandonmentFront(codec, a.abandonment, frames.abandonment, []);
  }

  /** Decoding an encoding returns exactly the encoded facts, if and only if they are representable. */
  lemma DecodeInvertsEncode(codec: FrameCodec, a: Aggregate)
    requires RoundTrips(codec) && EncodeAggregate(codec, a).Ok?
    ensures DecodeFacts(codec, EncodeAggregate(codec, a).value) == Ok(a) <==> Representable(a)
  {
    var frames := EncodeFrames(codec, a).value;
    var payload := Payload(a, frames);
    var counted := PutU64(|payload|, payload);
    TakeFront(MAGIC, VERSION + counted);
    TakeFront(VERSION, counted);
    ReadU64Front(|payload|, payload);
    ReadSectionsOfPayload(codec, a, frames);
  }

  // Encoding what was decoded; each lemma names the nested frame it found.

  lemma ReadExpectedIsCanonical(codec: FrameCodec, s: seq<Byte>) returns (frame: seq<Byte>)
    requires Canonical(codec) && ReadExpected(codec, s).Ok?
    ensures var Parsed(expected, rest) := ReadExpected(codec, s).value;
      ExpectedFrame(codec, expected) == Ok(frame) && s == PutExpected(expected, frame, rest)
  {
    var tag := ReadU8(s).value;
    U8IsCanonical(s);
    frame := [];
    if tag.value == 1 {
      BoolIsCanonical(tag.rest, ExpectedSection);
      var issued := ReadBool(tag.rest, ExpectedSection).value;
      U64IsCanonical(issued.rest);
      var authorization := ReadU64(issued.rest).value;
      TestimonyIsCanonical(authorization.rest, ExpectedSection);
      var lost := ReadTestimony(authorization.rest, ExpectedSection).value;
      BlobIsCanonical(lost.rest);
      frame := ReadBlob(lost.rest).value.value;
      assert codec.encode(codec.decodeAtServer(frame).value) == Ok(frame);
    }
  }

  lemma ReadTerminalIsCanonical(codec: FrameCodec, s: seq<Byte>, tag: Byte) returns (frame: seq<Byte>)
    requires Canonical(codec) && ReadTerminal(codec, s, tag).Ok?
    ensures var Parsed(terminal, rest) := ReadTerminal(codec, s, tag).value;
      StatusTag(Terminal(terminal)) == tag &&
      EncodeFrame(codec, ValueFrame(TerminalValue(terminal)), ReplaySection) == Ok(frame) &&
      s == PutBlob(frame, rest)
  {
    BlobIsCanonical(s);
    frame := ReadBlob(s).value.value;
    assert codec.encode(codec.decodeAtClient(frame).value) == Ok(frame);
  }

  lemma ReadStatusIsCanonical(codec: FrameCodec, s: seq<Byte>, tag: Byte, request: DetachEnvelope)
    returns (frame: seq<Byte>)
    requires Canonical(codec) && 1 <= tag <= 8 && ReadStatus(codec, s, tag).Ok?
    ensures var Parsed(status, rest) := ReadStatus(codec, s, tag).value;
      StatusTag(status) == tag &&
      ReplayFrame(codec, RecordedReplay(request, status)) == Ok(frame) &&
      s == PutStatus(status, frame, rest)
  {
    frame := [];
    if tag >= 5 { frame := ReadTerminalIsCanonical(codec, s, tag); }
  }

  lemma ReadReplayIsCanonical(codec: FrameCodec, s: seq<Byte>) returns (frame: seq<Byte>)
    requires Canonical(codec) && ReadReplay(codec, s).Ok?
    ensures var Parsed(replay, rest) := ReadReplay(codec, s).value;
      ReplayFrame(codec, replay) == Ok(frame) && s == PutReplay(replay, frame, rest)
  {
    var tag := ReadU8(s).value;
    U8IsCanonical(s);
    frame := [];
    if tag.value != 0 {
      DetachIsCanonical(tag.rest);
      var request := ReadDetach(tag.rest).value;
      frame := ReadStatusIsCanonical(codec, request.rest, tag.value, request.value);
    }
  }

  lemma ReadAbandonmentIsCanonical(codec: FrameCodec, s: seq<Byte>) returns (frame: seq<Byte>)
    requires Canonical(codec) && ReadAbandonment(codec, s).Ok?
    ensures var Parsed(abandonment, rest) := ReadAbandonment(codec, s).value;
      AbandonmentFrame(codec, abandonment) == Ok(frame) && s == PutAbandonment(abandonment, frame, rest)
  {
    var tag := ReadU8(s).value;
    U8IsCanonical(s);
    frame := [];
    if tag.value == 1 {
      U8IsCanonical(tag.rest);
      var reason := ReadU8(tag.rest).value;
      BoolIsCanonical(reason.rest, AbandonmentSection);
      var issued := ReadBool(reason.rest, AbandonmentSection).value;
      BlobIsCanonical(issued.rest);
      frame := ReadBlob(issued.rest).value.value;
      assert codec.encode(codec.decodeAtServer(frame).value) == Ok(frame);
    }
  }

  lemma ReadSectionsIsCanonical(codec: FrameCodec, s: seq<Byte>)
    requires Canonical(codec)
    requires ReadSections(codec, s).Ok? && ReadSections(codec, s).value.rest == []
    ensures var a := ReadSections(codec, s).value.value;
      EncodeFrames(codec, a).Ok? && s == Payload(a, EncodeFrames(codec, a).value)
  {
    BindingIsCanonical(s);
    var binding := ReadBinding(s).value;
    U64IsCanonical(binding.rest);
    var next := ReadU64(binding.rest).value;
    var expectedFrame := ReadExpectedIsCanonical(codec, next.rest);
    var expected := ReadExpected(codec, next.rest).value;
    var replayFrame := ReadReplayIsCanonical(codec, expected.rest);
    var replay := ReadReplay(codec, expected.rest).value;
    ReconnectIsCanonical(replay.rest);
    var reconnect := ReadReconnect(replay.rest).value;
    var abandonmentFrame := ReadAbandonmentIsCanonical(codec, reconnect.rest);
  }

  /** Every accepted record is the encoding of the facts it yields. */
  lemma EncodeInvertsDecode(codec: FrameCodec, input: seq<Byte>)
    requires Canonical(codec) && DecodeFacts(codec, input).Ok?
    ensures EncodeAggregate(codec, DecodeFacts(codec, input).value) == Ok(input)
  {
    var magic := Take(input, 4).value;
    var version := Take(magic.rest, 2).value;
    TakeIsCanonical(input, 4);
    TakeIsCanonical(magic.rest, 2);
    U64IsCanonical(version.rest);
    var declared := ReadU64(version.rest).value;
    ReadSectionsIsCanonical(codec, declared.rest);
  }

  /** Two accepted records of the same facts are the same bytes. */
  lemma OneStateOneEncoding(codec: FrameCodec, left: seq<Byte>, right: seq<Byte>)
    requires Canonical(codec)
    requires DecodeFacts(codec, left).Ok? && DecodeFacts(codec, left) == DecodeFacts(codec, right)
    ensures left == right
  {
    EncodeInvertsDecode(codec, left);
    EncodeInvertsDecode(codec, right);
  }

  // The bytes themselves.

  /** The tag each case of a section is written under. */
  lemma TagsAreFixed(b: Binding, state: ReconnectState, frame: seq<Byte>, e: ExpectedOperation, aband: Abandonment)
    requires BlobFits(frame)
    ensures PutBinding(b, [])[0] == (if b.Unbound? then 0 else if b.Bound? then 1 else if b.Detached? then 2 else 3)
    ensures PutReconnectState(state, [])[0] ==
      (if state.ReconnectParked? then 0 else if state.PermitOutstanding? then 1
       else if state.AttemptInProgress? then 2 else 3)
    ensures PutExpected(None, [], [])[0] == 0 && PutExpected(Some(e), frame, [])[..2] == [1, BoolTag(e.issued)]
    ensures PutAbandonment(None, [], [])[0] == 0 &&
      PutAbandonment(Some(aband), frame, [])[..3] == [1, 0, BoolTag(aband.wasIssued)]
    ensures PutReplay(EmptyReplay, [], [])[0] == 0 && BoolTag(false) == 0 && BoolTag(true) == 1
    ensures EventTag(TransportFate) == 0 && EventTag(OnlineTransition) == 1 && EventTag(ExplicitCallerAction) == 2
  {
  }

  lemma StatusAndTestimonyTagsAreFixed(terminal: ReplayTerminal)
    ensures StatusTag(Parked) == 1 && StatusTag(InFlight) == 2 && StatusTag(Superseded) == 3
    ensures StatusTag(LeaveSuperseded) == 4
    ensures StatusTag(Terminal(terminal)) ==
      (if terminal.CommittedTerminal? then 5 else if terminal.InProgressTerminal? then 6
       else if terminal.CellTerminal? then 7 else 8)
    ensures TestimonyTag(None) == 0 && TestimonyTag(Some(IssuedOperationCorrelation)) == 1
    ensures TestimonyTag(Some(DetachTransportAttempt)) == 2 && TestimonyTag(Some(ReconnectPermit)) == 3
    ensures TestimonyTag(Some(ReconnectAttempt)) == 4
  {
  }

  const FRESH_RECORD: seq<Byte> :=
    [0x4C, 0x50, 0x43, 0x52] + [0, 1] + [0, 0, 0, 0, 0, 0, 0, 22] +
    [0] + [0, 0, 0, 0, 0, 0, 0, 0] + [0] + [0] + [0, 0, 0, 0, 0, 0, 0, 0] + [0] + [0] + [0]

  lemma SmallWord(n: Byte)
    ensures U64Bytes(n) == [0, 0, 0, 0, 0, 0, 0, n]
  {
    assert Digit(n, 0) == n && n / 256 == 0;
    ZeroDigits(6);
    forall i | 0 <= i < 7
      ensures U64Bytes(n)[i] == 0
    {
      assert Digit(n, 7 - i) == Digit(0, 6 - i);
      ZeroDigits(6 - i);
    }
  }

  lemma {:induction false} ZeroDigits(place: nat)
    ensures Digit(0, place) == 0
  {
    if place > 0 { ZeroDigits(place - 1); }
  }

  /** The record of the fresh aggregate, byte for byte, whatever the frame codec. */
  lemma FreshRecordIsFixed(codec: FrameCodec)
    ensures EncodeAggregate(codec, FRESH) == Ok(FRESH_RECORD)
  {
    SmallWord(0);
    SmallWord(22);
    var payload := Payload(FRESH, Frames([], [], []));
    assert payload == [0] + [0, 0, 0, 0, 0, 0, 0, 0] + [0] + [0] + [0, 0, 0, 0, 0, 0, 0, 0] + [0] + [0] + [0];
    assert MAGIC + (VERSION + PutU64(22, payload)) == FRESH_RECORD;
  }
}
