/** The bytes of every section, laid out flat: field order and width as they are stored. */
module RecordLayout {
  import opened Outcomes
  import opened Wire
  import opened Participant
  import opened Bytes
  import opened ResumeCodec

  // Sections do not depend on what follows them.

  lemma Regroup<T>(a: seq<T>, b: seq<T>, c: seq<T>)
    ensures a + (b + c) == (a + b) + c && [] + c == c
  {
  }

  lemma WordStands(n: U64, front: seq<Byte>, tail: seq<Byte>)
    ensures PutU64(n, front + tail) == PutU64(n, front) + tail
  {
    Regroup(U64Bytes(n), front, tail);
  }

  lemma BlobStands(blob: seq<Byte>, tail: seq<Byte>)
    requires BlobFits(blob)
    ensures PutBlob(blob, tail) == PutBlob(blob, []) + tail
  {
    Regroup(blob, [], tail);
    WordStands(|blob|, blob + [], tail);
  }

  lemma IdentityStands(c: U64, p: U64, g: Generation, front: seq<Byte>, tail: seq<Byte>)
    ensures PutIdentity(c, p, g, front + tail) == PutIdentity(c, p, g, front) + tail
  {
    WordStands(g, front, tail);
    WordStands(p, PutU64(g, front), tail);
    WordStands(c, PutU64(p, PutU64(g, front)), tail);
  }

  lemma EpochStands(e: BindingEpoch, tail: seq<Byte>)
    ensures PutEpoch(e, tail) == PutEpoch(e, []) + tail
  {
    Regroup([], [], tail);
    IdentityStands(e.serverIncarnation, e.connectionOrdinal, e.generation, [], tail);
  }

  lemma BindingStands(b: Binding, tail: seq<Byte>)
    ensures PutBinding(b, tail) == PutBinding(b, []) + tail
  {
    match b
    case Unbound =>
    case Bound(c, p, g, secret, epoch) =>
      EpochStands(epoch, tail);
      Regroup(secret, PutEpoch(epoch, []), tail);
      IdentityStands(c, p, g, secret + PutEpoch(epoch, []), tail);
      Regroup([1], PutIdentity(c, p, g, secret + PutEpoch(epoch, [])), tail);
    case Detached(c, p, g, secret) =>
      Regroup(secret, [], tail);
      IdentityStands(c, p, g, secret + [], tail);
      Regroup([2], PutIdentity(c, p, g, secret + []), tail);
    case Left(c, p, g) =>
      IdentityStands(c, p, g, [], tail);
      Regroup([3], PutIdentity(c, p, g, []), tail);
  }

  lemma ExpectedStands(expected: Option<ExpectedOperation>, frame: seq<Byte>, tail: seq<Byte>)
    requires BlobFits(frame)
    ensures PutExpected(expected, frame, tail) == PutExpected(expected, frame, []) + tail
  {
    match expected
    case None =>
    case Some(e) =>
      var blob := PutBlob(frame, []);
      var lost := [TestimonyTag(e.lost)] + blob;
      var authorization := PutU64(e.authorization, lost);
      BlobStands(frame, tail);
      Regroup([TestimonyTag(e.lost)], blob, tail);
      WordStands(e.authorization, lost, tail);
      Regroup([BoolTag(e.issued)], authorization, tail);
      Regroup([1], [BoolTag(e.issued)] + authorization, tail);
  }

  lemma ReplayStands(replay: DetachReplay, frame: seq<Byte>, tail: seq<Byte>)
    requires BlobFits(frame)
    ensures PutReplay(replay, frame, tail) == PutReplay(replay, frame, []) + tail
  {
    match replay
    case EmptyReplay =>
    case RecordedReplay(request, status) =>
      var end := PutStatus(status, frame, []);
      BlobStands(frame, tail);
      Regroup(request.token, end, tail);
      IdentityStands(request.conversation, request.participant, request.generation, request.token + end, tail);
      Regroup([StatusTag(status)], PutDetach(request, end), tail);
  }

  lemma ReconnectStateStands(state: ReconnectState, front: seq<Byte>, tail: seq<Byte>)
    ensures PutReconnectState(state, front + tail) == PutReconnectState(state, front) + tail
  {
    match state
    case ReconnectParked => Regroup([0], front, tail);
    case Online => Regroup([3], front, tail);
    case PermitOutstanding(n, event, issued) =>
      Regroup([BoolTag(issued)], front, tail);
      Regroup([EventTag(event)], [BoolTag(issued)] + front, tail);
      WordStands(n, [EventTag(event)] + ([BoolTag(issued)] + front), tail);
      Regroup([1], PutU64(n, [EventTag(event)] + ([BoolTag(issued)] + front)), tail);
    case AttemptInProgress(n, event) =>
      Regroup([EventTag(event)], front, tail);
      WordStands(n, [EventTag(event)] + front, tail);
      Regroup([2], PutU64(n, [EventTag(event)] + front), tail);
  }

  lemma ReconnectStands(r: Reconnect, tail: seq<Byte>)
    ensures PutReconnect(r, tail) == PutReconnect(r, []) + tail
  {
    var lost := [TestimonyTag(r.lost)] + [];
    Regroup([TestimonyTag(r.lost)], [], tail);
    ReconnectStateStands(r.state, lost, tail);
    WordStands(r.nextAuthorization, PutReconnectState(r.state, lost), tail);
  }

  // Sections, flat.

  lemma BindingLayout(b: Binding)
    ensures PutBinding(b, []) ==
      match b
      case Unbound => [0]
      case Bound(c, p, g, secret, epoch) =>
        [1] + U64Bytes(c) + U64Bytes(p) + U64Bytes(g) + secret +
        U64Bytes(epoch.serverIncarnation) + U64Bytes(epoch.connectionOrdinal) + U64Bytes(epoch.generation)
      case Detached(c, p, g, secret) => [2] + U64Bytes(c) + U64Bytes(p) + U64Bytes(g) + secret
      case Left(c, p, g) => [3] + U64Bytes(c) + U64Bytes(p) + U64Bytes(g)
  {
  }

  lemma ExpectedLayout(e: ExpectedOperation, frame: seq<Byte>)
    requires BlobFits(frame)
    ensures PutExpected(Some(e), frame, []) ==
      [1] + [BoolTag(e.issued)] + U64Bytes(e.authorization) + [TestimonyTag(e.lost)] + U64Bytes(|frame|) + frame
  {
  }

  lemma ReplayLayout(request: DetachEnvelope, status: ReplayStatus, frame: seq<Byte>)
    requires BlobFits(frame)
    ensures PutReplay(RecordedReplay(request, status), frame, []) ==
      [StatusTag(status)] + U64Bytes(request.conversation) + U64Bytes(request.participant) +
      U64Bytes(request.generation) + request.token +
      if status.Terminal? then U64Bytes(|frame|) + frame else []
  {
  }

  lemma ReconnectLayout(r: Reconnect)
    ensures PutReconnect(r, []) ==
      U64Bytes(r.nextAuthorization) +
      (match r.state
       case ReconnectParked => [0]
       case PermitOutstanding(n, event, issued) => [1] + U64Bytes(n) + [EventTag(event)] + [BoolTag(issued)]
       case AttemptInProgress(n, event) => [2] + U64Bytes(n) + [EventTag(event)]
       case Online => [3]) +
      [TestimonyTag(r.lost)]
  {
  }

  lemma AbandonmentLayout(a: Abandonment, frame: seq<Byte>)
    requires BlobFits(frame)
    ensures PutAbandonment(Some(a), frame, []) == [1] + [0] + [BoolTag(a.wasIssued)] + U64Bytes(|frame|) + frame
  {
  }

  /** The payload is the six sections in this order, and the record its magic, version, length and payload. */
  lemma RecordLayoutIsFixed(codec: FrameCodec, a: Aggregate)
    requires EncodeAggregate(codec, a).Ok?
    ensures var frames := EncodeFrames(codec, a).value;
      var payload :=
        PutBinding(a.binding, []) + U64Bytes(a.nextOperationAuthorization) +
        PutExpected(a.expected, frames.expected, []) + PutReplay(a.replay, frames.replay, []) +
        PutReconnect(a.reconnect, []) + PutAbandonment(a.abandonment, frames.abandonment, []);
      |payload| <= U64_MAX &&
      EncodeAggregate(codec, a).value == [0x4C, 0x50, 0x43, 0x52] + [0, 1] + U64Bytes(|payload|) + payload
  {
    var frames := EncodeFrames(codec, a).value;
    PayloadLayout(a, frames);
  }

  lemma PayloadLayout(a: Aggregate, frames: Frames)
    requires FramesFit(frames)
    ensures Payload(a, frames) ==
      PutBinding(a.binding, []) + U64Bytes(a.nextOperationAuthorization) +
      PutExpected(a.expected, frames.expected, []) + PutReplay(a.replay, frames.replay, []) +
      PutReconnect(a.reconnect, []) + PutAbandonment(a.abandonment, frames.abandonment, [])
  {
    var abandonment := PutAbandonment(a.abandonment, frames.abandonment, []);
    var reconnect := PutReconnect(a.reconnect, abandonment);
    var replay := PutReplay(a.replay, frames.replay, reconnect);
    var expected := PutExpected(a.expected, frames.expected, replay);
    BindingStands(a.binding, PutU64(a.nextOperationAuthorization, expected));
    ExpectedStands(a.expected, frames.expected, replay);
    ReplayStands(a.replay, frames.replay, reconnect);
    ReconnectStands(a.reconnect, abandonment);
    Flatten(
      PutBinding(a.binding, []), U64Bytes(a.nextOperationAuthorization),
      PutExpected(a.expected, frames.expected, []), PutReplay(a.replay, frames.replay, []),
      PutReconnect(a.reconnect, []), abandonment);
  }

  lemma Flatten<T>(a: seq<T>, b: seq<T>, c: seq<T>, d: seq<T>, e: seq<T>, f: seq<T>)
    ensures a + (b + (c + (d + (e + f)))) == a + b + c + d + e + f
  {
  }
}
