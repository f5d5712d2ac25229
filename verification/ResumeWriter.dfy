/** The record encoder as written: every section is pushed onto one growing buffer. */
module ResumeWriter {
  import opened Outcomes
  import opened Wire
  import opened Participant
  import opened Bytes
  import opened ResumeCodec

  class Buffer {
    var bytes: seq<Byte>

    constructor ()
      ensures bytes == []
    {
      bytes := [];
    }

    method Push(b: Byte)
      modifies this
      ensures forall tail :: bytes + tail == old(bytes) + ([b] + tail)
    {
      Extend([b]);
    }

    method Extend(more: seq<Byte>)
      modifies this
      ensures forall tail :: bytes + tail == old(bytes) + (more + tail)
    {
      bytes := bytes + more;
      forall tail
        ensures bytes + tail == old(bytes) + (more + tail)
      {
        Associates(old(bytes), more, tail);
      }
    }

    method ExtendU64(n: U64)
      modifies this
      ensures forall tail :: bytes + tail == old(bytes) + PutU64(n, tail)
    {
      Extend(U64Bytes(n));
    }

    method ExtendBlob(blob: seq<Byte>)
      requires BlobFits(blob)
      modifies this
      ensures forall tail :: bytes + tail == old(bytes) + PutBlob(blob, tail)
    {
      ExtendU64(|blob|);
      Extend(blob);
    }
  }

  lemma Associates(a: seq<Byte>, b: seq<Byte>, c: seq<Byte>)
    ensures (a + b) + c == a + (b + c)
  {
  }

  method EncodeEpoch(epoch: BindingEpoch, output: Buffer)
    modifies output
    ensures forall tail :: output.bytes + tail == old(output.bytes) + PutEpoch(epoch, tail)
  {
    output.ExtendU64(epoch.serverIncarnation);
    output.ExtendU64(epoch.connectionOrdinal);
    output.ExtendU64(epoch.generation);
  }

  method EncodeIdentity(conversation: U64, participant: U64, generation: Generation, output: Buffer)
    modifies output
    ensures forall tail ::
      output.bytes + tail == old(output.bytes) + PutIdentity(conversation, participant, generation, tail)
  {
    output.ExtendU64(conversation);
    output.ExtendU64(participant);
    output.ExtendU64(generation);
  }

  method EncodeBinding(b: Binding, output: Buffer)
    modifies output
    ensures forall tail :: output.bytes + tail == old(output.bytes) + PutBinding(b, tail)
  {
    match b
    case Unbound => output.Push(0);
    case Bound(c, p, g, secret, epoch) =>
      output.Push(1);
      EncodeIdentity(c, p, g, output);
      output.Extend(secret);
      EncodeEpoch(epoch, output);
    case Detached(c, p, g, secret) =>
      output.Push(2);
      EncodeIdentity(c, p, g, output);
      output.Extend(secret);
    case Left(c, p, g) =>
      output.Push(3);
      EncodeIdentity(c, p, g, output);
  }

  method EncodeExpected(codec: FrameCodec, expected: Option<ExpectedOperation>, output: Buffer)
    returns (r: Result<(), EncodeError>)
    modifies output
    ensures match ExpectedFrame(codec, expected)
      case Err(error) => r == Err(error)
      case Ok(frame) =>
        r.Ok? && forall tail :: output.bytes + tail == old(output.bytes) + PutExpected(expected, frame, tail)
  {
    if expected.None? {
      output.Push(0);
      return Ok(());
    }
    var e := expected.value;
    output.Push(1);
    output.Push(BoolTag(e.issued));
    output.ExtendU64(e.authorization);
    output.Push(TestimonyTag(e.lost));
    var frame :- EncodeFrame(codec, RequestFrame(e.request), ExpectedSection);
    output.ExtendBlob(frame);
    r := Ok(());
  }

  method EncodeReplay(codec: FrameCodec, replay: DetachReplay, output: Buffer) returns (r: Result<(), EncodeError>)
    modifies output
    ensures match ReplayFrame(codec, replay)
      case Err(error) => r == Err(error)
      case Ok(frame) =>
        r.Ok? && forall tail :: output.bytes + tail == old(output.bytes) + PutReplay(replay, frame, tail)
  {
    if replay.EmptyReplay? {
      output.Push(0);
      return Ok(());
    }
    output.Push(StatusTag(replay.status));
    EncodeIdentity(replay.request.conversation, replay.request.participant, replay.request.generation, output);
    output.Extend(replay.request.token);
    if replay.status.Terminal? {
      var frame :- EncodeFrame(codec, ValueFrame(TerminalValue(replay.status.terminal)), ReplaySection);
      output.ExtendBlob(frame);
    }
    r := Ok(());
  }

  method EncodeReconnect(reconnect: Reconnect, output: Buffer)
    modifies output
    ensures forall tail :: output.bytes + tail == old(output.bytes) + PutReconnect(reconnect, tail)
  {
    output.ExtendU64(reconnect.nextAuthorization);
    match reconnect.state {
      case ReconnectParked => output.Push(0);
      case PermitOutstanding(authorization, event, issued) =>
        output.Push(1);
        output.ExtendU64(authorization);
        output.Push(EventTag(event));
        output.Push(BoolTag(issued));
      case AttemptInProgress(authorization, event) =>
        output.Push(2);
        output.ExtendU64(authorization);
        output.Push(EventTag(event));
      case Online => output.Push(3);
    }
    output.Push(TestimonyTag(reconnect.lost));
  }

  method EncodeAbandonment(codec: FrameCodec, abandonment: Option<Abandonment>, output: Buffer)
    returns (r: Result<(), EncodeError>)
    modifies output
    ensures match AbandonmentFrame(codec, abandonment)
      case Err(error) => r == Err(error)
      case Ok(frame) =>
        r.Ok? && forall tail :: output.bytes + tail == old(output.bytes) + PutAbandonment(abandonment, frame, tail)
  {
    if abandonment.None? {
      output.Push(0);
      return Ok(());
    }
    output.Push(1);
    output.Push(0);
    output.Push(BoolTag(abandonment.value.wasIssued));
    var frame :- EncodeFrame(codec, RequestFrame(abandonment.value.request), AbandonmentSection);
    output.ExtendBlob(frame);
    r := Ok(());
  }

  /** The payload: all six sections pushed in order. */
  method EncodePayload(codec: FrameCodec, a: Aggregate, payload: Buffer) returns (r: Result<(), EncodeError>)
    requires payload.bytes == []
    modifies payload
    ensures match EncodeFrames(codec, a)
      case Err(error) => r == Err(error)
      case Ok(frames) => r.Ok? && payload.bytes == Payload(a, frames)
  {
    EncodeBinding(a.binding, payload);
    payload.ExtendU64(a.nextOperationAuthorization);
    var _ :- EncodeExpected(codec, a.expected, payload);
    var _ :- EncodeReplay(codec, a.replay, payload);
    EncodeReconnect(a.reconnect, payload);
    var _ :- EncodeAbandonment(codec, a.abandonment, payload);
    r := Ok(());
    assert payload.bytes + [] == payload.bytes;
    assert payload.bytes == [] + Payload(a, EncodeFrames(codec, a).value);
  }

  /** Pushing section by section onto one buffer gives exactly the canonical encoding. */
  method EncodeRecord(codec: FrameCodec, a: Aggregate) returns (r: Result<seq<Byte>, EncodeError>)
    ensures r == EncodeAggregate(codec, a)
  {
    var payload := new Buffer();
    var _ :- EncodePayload(codec, a, payload);
    if |payload.bytes| > U64_MAX {
      return Err(LengthOverflow);
    }
    var output := new Buffer();
    output.Extend(MAGIC);
    output.Extend(VERSION);
    output.ExtendU64(|payload.bytes|);
    output.Extend(payload.bytes);
    r := Ok(output.bytes);
    ghost var sealed := payload.bytes;
    assert sealed + [] == sealed && output.bytes + [] == output.bytes;
    ghost var record := MAGIC + (VERSION + PutU64(|sealed|, sealed));
    assert output.bytes == [] + record == record;
  }
}
