/** What a refused record is refused for: the section blamed, the tag found, the header field that failed. */
module DecodeErrors {
  import opened Outcomes
  import opened Wire
  import opened Participant
  import opened Bytes
  import opened ResumeCodec

  /** A section's error is a truncation, a tag out of its range, or its own nested value. */
  predicate Blames(error: DecodeError, section: Section) {
    match error
    case Truncated(needed, remaining) => remaining < needed
    case InvalidTag(blamed, tag) => blamed == section && tag > 0
    case DecodeNestedCodec(blamed, _) => blamed == section
    case InvalidAbandonmentRequest(kind) => section.AbandonmentSection? && kind != ObserverClass
    case _ => false
  }

  predicate BlamesOwn<T>(r: Decoded<T>, section: Section) {
    r.Err? ==> Blames(r.error, section)
  }

  lemma WordBlames(s: seq<Byte>, section: Section)
    ensures BlamesOwn(ReadU64(s), section) && BlamesOwn(ReadGeneration(s, section), section)
    ensures BlamesOwn(ReadBlob(s), section)
  {
  }

  lemma TagsBlame(s: seq<Byte>, section: Section)
    ensures BlamesOwn(ReadU8(s), section) && BlamesOwn(ReadBool(s, section), section)
    ensures BlamesOwn(ReadTestimony(s, section), section) && BlamesOwn(ReadEvent(s), ReconnectSection)
  {
  }

  lemma IdentityBlames(s: seq<Byte>, section: Section)
    ensures BlamesOwn(ReadIdentity(s, section), section)
  {
    WordBlames(s, section);
    if ReadU64(s).Ok? {
      var afterConversation := ReadU64(s).value.rest;
      WordBlames(afterConversation, section);
      if ReadU64(afterConversation).Ok? { WordBlames(ReadU64(afterConversation).value.rest, section); }
    }
  }

  lemma EpochBlames(s: seq<Byte>)
    ensures BlamesOwn(ReadEpoch(s), BindingSection)
  {
    WordBlames(s, BindingSection);
    if ReadU64(s).Ok? {
      var afterServer := ReadU64(s).value.rest;
      WordBlames(afterServer, BindingSection);
      if ReadU64(afterServer).Ok? { WordBlames(ReadU64(afterServer).value.rest, BindingSection); }
    }
  }

  lemma BindingBlames(s: seq<Byte>)
    ensures BlamesOwn(ReadBinding(s), BindingSection)
    ensures |s| > 0 && s[0] > 3 ==> ReadBinding(s) == Err(InvalidTag(BindingSection, s[0]))
  {
    TagsBlame(s, BindingSection);
    if ReadU8(s).Ok? {
      var afterTag := ReadU8(s).value.rest;
      IdentityBlames(afterTag, BindingSection);
      if ReadIdentity(afterTag, BindingSection).Ok? {
        var secret := Take(ReadIdentity(afterTag, BindingSection).value.rest, 32);
        if secret.Ok? { EpochBlames(secret.value.rest); }
      }
    }
  }

  lemma ExpectedBlames(codec: FrameCodec, s: seq<Byte>)
    ensures BlamesOwn(ReadExpected(codec, s), ExpectedSection)
    ensures |s| > 0 && s[0] > 1 ==> ReadExpected(codec, s) == Err(InvalidTag(ExpectedSection, s[0]))
  {
    TagsBlame(s, ExpectedSection);
    if ReadU8(s).Ok? {
      var afterTag := ReadU8(s).value.rest;
      TagsBlame(afterTag, ExpectedSection);
      if ReadBool(afterTag, ExpectedSection).Ok? { SlotBlames(ReadBool(afterTag, ExpectedSection).value.rest); }
    }
  }

  /** Past the issued flag: the number, the testimony and the frame. */
  lemma SlotBlames(s: seq<Byte>)
    ensures BlamesOwn(ReadU64(s), ExpectedSection)
    ensures ReadU64(s).Ok? ==>
      var lost := ReadTestimony(ReadU64(s).value.rest, ExpectedSection);
      BlamesOwn(lost, ExpectedSection) && (lost.Ok? ==> BlamesOwn(ReadBlob(lost.value.rest), ExpectedSection))
  {
    WordBlames(s, ExpectedSection);
    if ReadU64(s).Ok? {
      TagsBlame(ReadU64(s).value.rest, ExpectedSection);
      var lost := ReadTestimony(ReadU64(s).value.rest, ExpectedSection);
      if lost.Ok? { WordBlames(lost.value.rest, ExpectedSection); }
    }
  }

  lemma StatusBlames(codec: FrameCodec, s: seq<Byte>, tag: Byte)
    requires 1 <= tag <= 8
    ensures BlamesOwn(ReadStatus(codec, s, tag), ReplaySection)
  {
    WordBlames(s, ReplaySection);
  }

  lemma DetachBlames(s: seq<Byte>)
    ensures BlamesOwn(ReadDetach(s), ReplaySection)
  {
    IdentityBlames(s, ReplaySection);
  }

  lemma ReplayBlames(codec: FrameCodec, s: seq<Byte>)
    ensures BlamesOwn(ReadReplay(codec, s), ReplaySection)
    ensures |s| > 0 && s[0] > 8 ==> ReadReplay(codec, s) == Err(InvalidTag(ReplaySection, s[0]))
  {
    TagsBlame(s, ReplaySection);
    if ReadU8(s).Ok? && 1 <= ReadU8(s).value.value <= 8 {
      var tag := ReadU8(s).value;
      DetachBlames(tag.rest);
      if ReadDetach(tag.rest).Ok? { StatusBlames(codec, ReadDetach(tag.rest).value.rest, tag.value); }
    }
  }

  lemma ReconnectStateBlames(s: seq<Byte>)
    ensures BlamesOwn(ReadReconnectState(s), ReconnectSection)
    ensures |s| > 0 && s[0] > 3 ==> ReadReconnectState(s) == Err(InvalidTag(ReconnectSection, s[0]))
  {
    TagsBlame(s, ReconnectSection);
    if ReadU8(s).Ok? {
      var afterTag := ReadU8(s).value.rest;
      WordBlames(afterTag, ReconnectSection);
      if ReadU64(afterTag).Ok? {
        var event := ReadEvent(ReadU64(afterTag).value.rest);
        TagsBlame(ReadU64(afterTag).value.rest, ReconnectSection);
        if event.Ok? { TagsBlame(event.value.rest, ReconnectSection); }
      }
    }
  }

  lemma ReconnectBlames(s: seq<Byte>)
    ensures BlamesOwn(ReadReconnect(s), ReconnectSection)
  {
    WordBlames(s, ReconnectSection);
    if ReadU64(s).Ok? {
      var state := ReadReconnectState(ReadU64(s).value.rest);
      ReconnectStateBlames(ReadU64(s).value.rest);
      if state.Ok? { TagsBlame(state.value.rest, ReconnectSection); }
    }
  }

  lemma AbandonmentBlames(codec: FrameCodec, s: seq<Byte>)
    ensures BlamesOwn(ReadAbandonment(codec, s), AbandonmentSection)
    ensures |s| > 0 && s[0] > 1 ==> ReadAbandonment(codec, s) == Err(InvalidTag(AbandonmentSection, s[0]))
    ensures |s| > 1 && s[0] == 1 && s[1] > 0 ==>
      ReadAbandonment(codec, s) == Err(InvalidTag(AbandonmentSection, s[1]))
  {
    TagsBlame(s, AbandonmentSection);
    if ReadU8(s).Ok? {
      var afterTag := ReadU8(s).value.rest;
      TagsBlame(afterTag, AbandonmentSection);
      if ReadU8(afterTag).Ok? {
        var issued := ReadBool(ReadU8(afterTag).value.rest, AbandonmentSection);
        TagsBlame(ReadU8(afterTag).value.rest, AbandonmentSection);
        if issued.Ok? { WordBlames(issued.value.rest, AbandonmentSection); }
      }
    }
  }

  // Nested frames.

  /** A frame the nested codec refuses is reported with its own error; one of the wrong kind with none. */
  lemma NestedRefusalIsKept(codec: FrameCodec, bytes: seq<Byte>, section: Section)
    ensures match ReadRequest(codec, bytes, section)
      case Ok(request) => codec.decodeAtServer(bytes) == Ok(RequestFrame(request))
      case Err(error) =>
        error.DecodeNestedCodec? && error.nested == section &&
        (match error.source
         case Some(source) => codec.decodeAtServer(bytes) == Err(source)
         case None => codec.decodeAtServer(bytes).Ok? && !codec.decodeAtServer(bytes).value.RequestFrame?)
  {
  }

  lemma NestedTerminalRefusalIsKept(codec: FrameCodec, blob: seq<Byte>, tail: seq<Byte>, tag: Byte)
    requires BlobFits(blob) && codec.decodeAtClient(blob).Err?
    ensures ReadTerminal(codec, PutBlob(blob, tail), tag) ==
      Err(DecodeNestedCodec(ReplaySection, Some(codec.decodeAtClient(blob).error)))
  {
    ReadBlobFront(blob, tail);
  }

  /** An encoding fails on the first section whose frame the nested codec refuses, with its own error. */
  lemma EncodingBlamesFirst(codec: FrameCodec, a: Aggregate)
    requires EncodeFrames(codec, a).Err? && EncodeFrames(codec, a).error.EncodeNestedCodec?
    ensures var error := EncodeFrames(codec, a).error;
      match error.section
      case ExpectedSection =>
        a.expected.Some? && codec.encode(RequestFrame(a.expected.value.request)) == Err(error.source)
      case ReplaySection =>
        ExpectedFrame(codec, a.expected).Ok? && a.replay.RecordedReplay? && a.replay.status.Terminal? &&
        codec.encode(ValueFrame(TerminalValue(a.replay.status.terminal))) == Err(error.source)
      case AbandonmentSection =>
        ExpectedFrame(codec, a.expected).Ok? && ReplayFrame(codec, a.replay).Ok? && a.abandonment.Some? &&
        codec.encode(RequestFrame(a.abandonment.value.request)) == Err(error.source)
      case _ => false
  {
  }

  // The header.

  lemma HeaderSplits(input: seq<Byte>)
    requires |input| >= 14
    ensures Take(input, 4) == Ok(Parsed(input[..4], input[4..]))
    ensures Take(input[4..], 2) == Ok(Parsed(input[4..6], input[6..]))
    ensures ReadU64(input[6..]) == Ok(Parsed(U64Of(input[6..14]), input[14..]))
  {
    assert input[4..][..2] == input[4..6] && input[4..][2..] == input[6..];
    assert input[6..][..8] == input[6..14] && input[6..][8..] == input[14..];
  }

  /** Magic, then version, then length: the first that fails is reported with what was found. */
  lemma HeaderRefusedExactly(codec: FrameCodec, input: seq<Byte>)
    requires |input| >= 14
    ensures DecodeFacts(codec, input) ==
      if input[..4] != [0x4C, 0x50, 0x43, 0x52] then Err(InvalidMagic(input[..4]))
      else if input[4..6] != [0, 1] then Err(UnsupportedVersion(input[4..6]))
      else if U64Of(input[6..14]) != |input| - 14 then Err(LengthMismatch(U64Of(input[6..14]), |input| - 14))
      else
        match ReadSections(codec, input[14..])
        case Err(error) => Err(error)
        case Ok(facts) => if |facts.rest| > 0 then Err(TrailingBytes(|facts.rest|)) else Ok(facts.value)
  {
    HeaderSplits(input);
  }

  /** Too short a record is truncated, or refused for a magic or version it already shows. */
  lemma ShortRecordIsRefused(codec: FrameCodec, input: seq<Byte>)
    requires |input| < 14
    ensures match DecodeFacts(codec, input)
      case Err(Truncated(needed, remaining)) => remaining < needed
      case Err(InvalidMagic(presented)) => |input| >= 4 && presented == input[..4] != [0x4C, 0x50, 0x43, 0x52]
      case Err(UnsupportedVersion(version)) => |input| >= 6 && version == input[4..6] != [0, 1]
      case _ => false
  {
    if |input| >= 6 { assert input[4..][..2] == input[4..6]; }
  }
}
