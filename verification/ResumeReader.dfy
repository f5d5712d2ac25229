/** The record decoder as written: one cursor advancing over the input. */
module ResumeReader {
  import opened Outcomes
  import opened Wire
  import opened Participant
  import opened Bytes
  import opened ResumeCodec

  class Reader {
    const input: seq<Byte>
    var offset: nat

    ghost predicate Valid()
      reads this
    {
      offset <= |input|
    }

    /** What is left to read. */
    ghost function Rest(): seq<Byte>
      requires Valid()
      reads this
    {
      input[offset..]
    }

    constructor (input: seq<Byte>)
      ensures Valid() && Rest() == input
    {
      this.input := input;
      offset := 0;
    }

    method Remaining() returns (n: nat)
      requires Valid()
      ensures n == |Rest()|
    {
      n := |input| - offset;
    }

    method TakeBytes(length: nat) returns (r: Result<seq<Byte>, DecodeError>)
      requires Valid()
      modifies this
      ensures Valid() && Advances(Take(old(Rest()), length), r, Rest())
      ensures r.Err? ==> Rest() == old(Rest())
    {
      var remaining := Remaining();
      if remaining < length {
        return Err(Truncated(length, remaining));
      }
      var start := offset;
      offset := offset + length;
      r := Ok(input[start..offset]);
      assert input[start..][..length] == input[start..offset];
      assert input[start..][length..] == input[offset..];
    }

    method U8() returns (r: Result<Byte, DecodeError>)
      requires Valid()
      modifies this
      ensures Valid() && Advances(ReadU8(old(Rest())), r, Rest())
    {
      var bytes :- TakeBytes(1);
      r := Ok(bytes[0]);
    }

    method U64() returns (r: Result<U64, DecodeError>)
      requires Valid()
      modifies this
      ensures Valid() && Advances(ReadU64(old(Rest())), r, Rest())
    {
      var bytes :- TakeBytes(8);
      r := Ok(U64Of(bytes));
    }

    method Blob() returns (r: Result<seq<Byte>, DecodeError>)
      requires Valid()
      modifies this
      ensures Valid() && Advances(ReadBlob(old(Rest())), r, Rest())
    {
      var length :- this.U64();
      r := TakeBytes(length);
    }
  }

  /** A reading method agrees with a decoding function: same value and rest, or same error. */
  ghost predicate Advances<T>(spec: Decoded<T>, r: Result<T, DecodeError>, rest: seq<Byte>) {
    match spec
    case Ok(parsed) => r == Ok(parsed.value) && rest == parsed.rest
    case Err(error) => r == Err(error)
  }

  method DecodeGeneration(reader: Reader, section: Section) returns (r: Result<Generation, DecodeError>)
    requires reader.Valid()
    modifies reader
    ensures reader.Valid() && Advances(ReadGeneration(old(reader.Rest()), section), r, reader.Rest())
  {
    var n :- reader.U64();
    if n == 0 {
      return Err(DecodeNestedCodec(section, None));
    }
    r := Ok(n);
  }

  method DecodeBool(reader: Reader, section: Section) returns (r: Result<bool, DecodeError>)
    requires reader.Valid()
    modifies reader
    ensures reader.Valid() && Advances(ReadBool(old(reader.Rest()), section), r, reader.Rest())
  {
    var tag :- reader.U8();
    r := if tag == 0 then Ok(false) else if tag == 1 then Ok(true) else Err(InvalidTag(section, tag));
  }

  method DecodeTestimony(reader: Reader, section: Section) returns (r: Result<Option<LostAuthorityKind>, DecodeError>)
    requires reader.Valid()
    modifies reader
    ensures reader.Valid() && Advances(ReadTestimony(old(reader.Rest()), section), r, reader.Rest())
  {
    var tag :- reader.U8();
    if tag == 0 {
      return Ok(None);
    } else if tag == 1 {
      return Ok(Some(IssuedOperationCorrelation));
    } else if tag == 2 {
      return Ok(Some(DetachTransportAttempt));
    } else if tag == 3 {
      return Ok(Some(ReconnectPermit));
    } else if tag == 4 {
      return Ok(Some(ReconnectAttempt));
    }
    r := Err(InvalidTag(section, tag));
  }

  method DecodeEvent(reader: Reader) returns (r: Result<FreshEvent, DecodeError>)
    requires reader.Valid()
    modifies reader
    ensures reader.Valid() && Advances(ReadEvent(old(reader.Rest())), r, reader.Rest())
  {
    var tag :- reader.U8();
    r := if tag == 0 then Ok(TransportFate)
    else if tag == 1 then Ok(OnlineTransition)
    else if tag == 2 then Ok(ExplicitCallerAction)
    else Err(InvalidTag(ReconnectSection, tag));
  }

  method DecodeEpoch(reader: Reader) returns (r: Result<BindingEpoch, DecodeError>)
    requires reader.Valid()
    modifies reader
    ensures reader.Valid() && Advances(ReadEpoch(old(reader.Rest())), r, reader.Rest())
  {
    var server :- reader.U64();
    var ordinal :- reader.U64();
    var generation :- DecodeGeneration(reader, BindingSection);
    r := Ok(BindingEpoch(server, ordinal, generation));
  }

  method DecodeIdentity(reader: Reader, section: Section) returns (r: Result<Identity, DecodeError>)
    requires reader.Valid()
    modifies reader
    ensures reader.Valid() && Advances(ReadIdentity(old(reader.Rest()), section), r, reader.Rest())
  {
    var conversation :- reader.U64();
    var participant :- reader.U64();
    var generation :- DecodeGeneration(reader, section);
    r := Ok(Identity(conversation, participant, generation));
  }

  method DecodeBinding(reader: Reader) returns (r: Result<Binding, DecodeError>)
    requires reader.Valid()
    modifies reader
    ensures reader.Valid() && Advances(ReadBinding(old(reader.Rest())), r, reader.Rest())
  {
    var tag :- reader.U8();
    if tag == 0 {
      return Ok(Unbound);
    }
    if tag > 3 {
      return Err(InvalidTag(BindingSection, tag));
    }
    var id :- DecodeIdentity(reader, BindingSection);
    if tag == 3 {
      return Ok(Left(id.conversation, id.participant, id.generation));
    }
    var secret :- reader.TakeBytes(32);
    if tag == 2 {
      return Ok(Detached(id.conversation, id.participant, id.generation, secret));
    }
    var epoch :- DecodeEpoch(reader);
    r := Ok(Bound(id.conversation, id.participant, id.generation, secret, epoch));
  }

  method DecodeExpected(codec: FrameCodec, reader: Reader) returns (r: Result<Option<ExpectedOperation>, DecodeError>)
    requires reader.Valid()
    modifies reader
    ensures reader.Valid() && Advances(ReadExpected(codec, old(reader.Rest())), r, reader.Rest())
  {
    var tag :- reader.U8();
    if tag == 0 {
      return Ok(None);
    }
    if tag != 1 {
      return Err(InvalidTag(ExpectedSection, tag));
    }
    var issued :- DecodeBool(reader, ExpectedSection);
    var authorization :- reader.U64();
    var lost :- DecodeTestimony(reader, ExpectedSection);
    var bytes :- reader.Blob();
    var request :- ReadRequest(codec, bytes, ExpectedSection);
    r := Ok(Some(ExpectedOperation(request, issued, authorization, lost)));
  }

  method DecodeTerminal(codec: FrameCodec, reader: Reader, tag: Byte) returns (r: Result<ReplayTerminal, DecodeError>)
    requires reader.Valid()
    modifies reader
    ensures reader.Valid() && Advances(ReadTerminal(codec, old(reader.Rest()), tag), r, reader.Rest())
  {
    var bytes :- reader.Blob();
    match codec.decodeAtClient(bytes) {
      case Ok(ValueFrame(value)) =>
        match TerminalOf(tag, value) {
          case Some(terminal) => r := Ok(terminal);
          case None => r := Err(DecodeNestedCodec(ReplaySection, None));
        }
      case Ok(_) => r := Err(DecodeNestedCodec(ReplaySection, None));
      case Err(source) => r := Err(DecodeNestedCodec(ReplaySection, Some(source)));
    }
  }

  method DecodeDetach(reader: Reader) returns (r: Result<DetachEnvelope, DecodeError>)
    requires reader.Valid()
    modifies reader
    ensures reader.Valid() && Advances(ReadDetach(old(reader.Rest())), r, reader.Rest())
  {
    var id :- DecodeIdentity(reader, ReplaySection);
    var token :- reader.TakeBytes(16);
    r := Ok(DetachEnvelope(id.conversation, id.participant, id.generation, token));
  }

  method DecodeStatus(codec: FrameCodec, reader: Reader, tag: Byte) returns (r: Result<ReplayStatus, DecodeError>)
    requires reader.Valid() && 1 <= tag <= 8
    modifies reader
    ensures reader.Valid() && Advances(ReadStatus(codec, old(reader.Rest()), tag), r, reader.Rest())
  {
    if tag == 1 {
      return Ok(Parked);
    } else if tag == 2 {
      return Ok(InFlight);
    } else if tag == 3 {
      return Ok(Superseded);
    } else if tag == 4 {
      return Ok(LeaveSuperseded);
    }
    var terminal :- DecodeTerminal(codec, reader, tag);
    r := Ok(Terminal(terminal));
  }

  method DecodeReplay(codec: FrameCodec, reader: Reader) returns (r: Result<DetachReplay, DecodeError>)
    requires reader.Valid()
    modifies reader
    ensures reader.Valid() && Advances(ReadReplay(codec, old(reader.Rest())), r, reader.Rest())
  {
    var tag :- reader.U8();
    if tag == 0 {
      return Ok(EmptyReplay);
    }
    if tag > 8 {
      return Err(InvalidTag(ReplaySection, tag));
    }
    var request :- DecodeDetach(reader);
    var status :- DecodeStatus(codec, reader, tag);
    r := Ok(RecordedReplay(request, status));
  }

  method DecodeReconnectState(reader: Reader) returns (r: Result<ReconnectState, DecodeError>)
    requires reader.Valid()
    modifies reader
    ensures reader.Valid() && Advances(ReadReconnectState(old(reader.Rest())), r, reader.Rest())
  {
    var tag :- reader.U8();
    if tag == 0 {
      return Ok(ReconnectParked);
    }
    if tag == 3 {
      return Ok(Online);
    }
    if tag > 3 {
      return Err(InvalidTag(ReconnectSection, tag));
    }
    var authorization :- reader.U64();
    var event :- DecodeEvent(reader);
    if tag == 2 {
      return Ok(AttemptInProgress(authorization, event));
    }
    var issued :- DecodeBool(reader, ReconnectSection);
    r := Ok(PermitOutstanding(authorization, event, issued));
  }

  method DecodeReconnect(reader: Reader) returns (r: Result<Reconnect, DecodeError>)
    requires reader.Valid()
    modifies reader
    ensures reader.Valid() && Advances(ReadReconnect(old(reader.Rest())), r, reader.Rest())
  {
    var next :- reader.U64();
    var state :- DecodeReconnectState(reader);
    var lost :- DecodeTestimony(reader, ReconnectSection);
    r := Ok(Reconnect(state, next, lost));
  }

  method DecodeAbandonment(codec: FrameCodec, reader: Reader) returns (r: Result<Option<Abandonment>, DecodeError>)
    requires reader.Valid()
    modifies reader
    ensures reader.Valid() && Advances(ReadAbandonment(codec, old(reader.Rest())), r, reader.Rest())
  {
    var tag :- reader.U8();
    if tag == 0 {
      return Ok(None);
    }
    if tag != 1 {
      return Err(InvalidTag(AbandonmentSection, tag));
    }
    var reason :- reader.U8();
    if reason != 0 {
      return Err(InvalidTag(AbandonmentSection, reason));
    }
    var wasIssued :- DecodeBool(reader, AbandonmentSection);
    var bytes :- reader.Blob();
    var request :- ReadRequest(codec, bytes, AbandonmentSection);
    if !request.ObserverRequest? {
      return Err(InvalidAbandonmentRequest(request.Class()));
    }
    r := Ok(Some(Abandonment(request, TokenlessAfterCrash, wasIssued)));
  }

  method DecodeSections(codec: FrameCodec, reader: Reader) returns (r: Result<Aggregate, DecodeError>)
    requires reader.Valid()
    modifies reader
    ensures reader.Valid() && Advances(ReadSections(codec, old(reader.Rest())), r, reader.Rest())
  {
    var binding :- DecodeBinding(reader);
    var next :- reader.U64();
    var expected :- DecodeExpected(codec, reader);
    var replay :- DecodeReplay(codec, reader);
    var reconnect :- DecodeReconnect(reader);
    var abandonment :- DecodeAbandonment(codec, reader);
    r := Ok(Aggregate(binding, expected, next, replay, reconnect, abandonment));
  }

  /** Reading with one advancing cursor decodes exactly what the section-by-section decoder does. */
  method DecodeRecord(codec: FrameCodec, input: seq<Byte>) returns (r: Result<Aggregate, DecodeError>)
    ensures r == DecodeFacts(codec, input)
  {
    var reader := new Reader(input);
    var magic :- reader.TakeBytes(4);
    if magic != MAGIC {
      return Err(InvalidMagic(magic));
    }
    var version :- reader.TakeBytes(2);
    if version != VERSION {
      return Err(UnsupportedVersion(version));
    }
    var declared :- reader.U64();
    var remaining := reader.Remaining();
    if declared != remaining {
      return Err(LengthMismatch(declared, remaining));
    }
    var facts :- DecodeSections(codec, reader);
    var trailing := reader.Remaining();
    if trailing != 0 {
      return Err(TrailingBytes(trailing));
    }
    r := Ok(facts);
  }
}
