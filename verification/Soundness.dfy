/**
 The invariant that couples binding, slot, replay, reconnect machine and loss atoms, and its
 preservation by every transition of the aggregate.
 */
module Soundness {
  import opened Outcomes
  import opened Wire
  import opened Participant
  import opened Correlations
  import opened Replays
  import opened Barrier
  import opened Inbound
  import opened Resume
  import opened ResumeCodec
  import opened ResumeRoundTrip

  predicate SoundSlot(a: Aggregate) {
    a.expected.Some? ==>
      var e := a.expected.value;
      !e.request.AckRequest? &&
      1 <= e.authorization == a.nextOperationAuthorization &&
      a.binding.AcceptsRequest(e.request) &&
      (e.lost.Some? ==> e.issued && !Tokenless(e.request) && e.lost.value == OperationLossKind(e.request))
  }

  /** The replay is active exactly while the slot holds its detach: parked unissued, in flight issued. */
  predicate Coupled(a: Aggregate) {
    (a.replay.IsActive() <==> ExpectedDetach(a.expected).Some?) &&
    (a.replay.IsActive() ==>
       a.expected.value.request == DetachRequest(a.replay.request) &&
       (a.replay.status.InFlight? <==> a.expected.value.issued))
  }

  /** A terminal names its detach, and a refusal terminal never holds an answer. */
  predicate HonestTerminal(replay: DetachReplay) {
    replay.RecordedReplay? && replay.status.Terminal? ==>
      TerminalMatches(replay.request, replay.status.terminal) && RepresentableReplay(replay)
  }

  /** The replay belongs to the bound participant, and an older generation is superseded. */
  predicate ReplayFollowsBinding(binding: Binding, replay: DetachReplay) {
    replay.RecordedReplay? ==>
      !binding.Unbound? &&
      binding.conversation == replay.request.conversation &&
      binding.participant == replay.request.participant &&
      (!binding.Left? ==>
         replay.request.generation <= binding.generation &&
         (replay.request.generation < binding.generation ==> replay.status.Superseded?))
  }

  predicate SoundReconnect(r: Reconnect) {
    (ReconnectAuthorization(r.state).Some? ==>
       1 <= ReconnectAuthorization(r.state).value == r.nextAuthorization) &&
    (r.state.PermitOutstanding? ==> r.state.issued) &&
    (r.lost.Some? ==> r.lost == ReconnectLossKind(r.state))
  }

  predicate SoundAbandonment(a: Aggregate) {
    a.abandonment.Some? ==>
      a.abandonment.value.request.ObserverRequest? &&
      !(a.expected.Some? && Tokenless(a.expected.value.request))
  }

  predicate Sound(a: Aggregate) {
    (a.binding.Bound? ==> a.binding.generation == a.binding.epoch.generation) &&
    SoundSlot(a) &&
    Coupled(a) &&
    HonestTerminal(a.replay) &&
    ReplayFollowsBinding(a.binding, a.replay) &&
    SoundReconnect(a.reconnect) &&
    SoundAbandonment(a)
  }

  // What soundness buys.

  /** A sound aggregate is never refused: not by the write side, not by the decoder, not by restore. */
  lemma SoundIsRestorable(a: Aggregate)
    requires Sound(a)
    ensures LiveReplayCoupled(a) && Representable(a) && RestoreFacts(a) == Ok(Crashed(a))
  {
  }

  /** The facts restore accepts, said once as a whole rather than check by check. */
  predicate Restorable(f: Aggregate) {
    (f.binding.Bound? ==> f.binding.generation == f.binding.epoch.generation) &&
    (f.expected.Some? ==>
       var e := f.expected.value;
       !e.request.AckRequest? && 1 <= e.authorization <= f.nextOperationAuthorization &&
       f.binding.AcceptsRequest(e.request) &&
       (e.lost.Some? ==> e.issued && !Tokenless(e.request) && e.lost.value == OperationLossKind(e.request))) &&
    Coupled(f) &&
    (f.replay.RecordedReplay? && f.replay.status.Terminal? ==>
       TerminalMatches(f.replay.request, f.replay.status.terminal)) &&
    (f.reconnect.state.PermitOutstanding? || f.reconnect.state.AttemptInProgress? ==>
       1 <= f.reconnect.state.authorization <= f.reconnect.nextAuthorization) &&
    (f.reconnect.lost.Some? ==> f.reconnect.lost == ReconnectLossKind(f.reconnect.state)) &&
    (f.abandonment.Some? && f.expected.Some? ==> !Tokenless(f.expected.value.request))
  }

  lemma RestoreAcceptsExactly(f: Aggregate)
    ensures RestoreFacts(f).Ok? <==> Restorable(f)
  {
  }

  /** A terminal is honest exactly when the value it stores names the retained detach. */
  lemma TerminalMatchesExactly(request: DetachEnvelope, terminal: ReplayTerminal)
    ensures TerminalMatches(request, terminal) <==> MatchesRequest(TerminalValue(terminal), DetachRequest(request))
  {
    MatchesExactly(TerminalValue(terminal), DetachRequest(request));
  }

  /** The write side refuses exactly the aggregates whose slot and active replay disagree, and restore would too. */
  lemma PersistRefusesExactly(codec: FrameCodec, a: Aggregate)
    ensures ResumeRecord(codec, a) == Err(DecoupledDetachReplay) <==>
      ExpectedDetach(a.expected) != (if a.replay.IsActive() then Some(a.replay.request) else None)
    ensures ResumeRecord(codec, a) == Err(DecoupledDetachReplay) ==> RestoreFacts(a).Err?
  {
  }

  /** Which restore error facts meet: each names its own broken invariant, and no earlier one is broken. */
  lemma RestoreRefusesFirst(f: Aggregate)
    requires RestoreFacts(f).Err?
    ensures var slot := f.expected;
      match RestoreFacts(f).error
      case BindingGenerationMismatch => f.binding.Bound? && f.binding.generation != f.binding.epoch.generation
      case ContinuousAckOutstanding => slot.Some? && slot.value.request.AckRequest?
      case InvalidOperationAuthorization =>
        slot.Some? && !(1 <= slot.value.authorization <= f.nextOperationAuthorization)
      case ExpectedBindingMismatch =>
        slot.Some? && 1 <= slot.value.authorization && !f.binding.AcceptsRequest(slot.value.request)
      case ActiveReplayExpectedDetachMismatch => f.replay.IsActive() && !Coupled(f)
      case ExpectedDetachActiveReplayMismatch => !f.replay.IsActive() && !Coupled(f)
      case ReplayTerminalMismatch =>
        Coupled(f) && f.replay.RecordedReplay? && f.replay.status.Terminal? &&
        !MatchesRequest(TerminalValue(f.replay.status.terminal), DetachRequest(f.replay.request))
      case InvalidReconnectAuthorization =>
        Coupled(f) && (f.reconnect.state.PermitOutstanding? || f.reconnect.state.AttemptInProgress?) &&
        !(1 <= f.reconnect.state.authorization <= f.reconnect.nextAuthorization)
      case LostAuthorityTestimonyMismatch =>
        Coupled(f) &&
        ((f.OperationLossPending() &&
          !(slot.value.issued && !slot.value.request.ObserverRequest? &&
            (slot.value.lost == Some(DetachTransportAttempt) <==> slot.value.request.DetachRequest?) &&
            (slot.value.lost == Some(IssuedOperationCorrelation) <==> !slot.value.request.DetachRequest?))) ||
         (f.reconnect.lost.Some? && f.reconnect.lost != Crashed(f).reconnect.lost))
      case PendingAbandonmentConflict =>
        Coupled(f) && f.abandonment.Some? && slot.Some? && slot.value.request.ObserverRequest?
  {
    if f.replay.RecordedReplay? && f.replay.status.Terminal? {
      TerminalMatchesExactly(f.replay.request, f.replay.status.terminal);
    }
  }

  /** Restore closes over itself: what it yields it accepts again, and yields unchanged. */
  lemma RestoreIsClosed(f: Aggregate)
    requires RestoreFacts(f).Ok?
    ensures RestoreFacts(f) == Ok(Crashed(f)) && RestoreFacts(Crashed(f)) == Ok(Crashed(f))
  {
    RestoreAcceptsExactly(f);
    RestoreAcceptsExactly(Crashed(f));
  }

  lemma CrashKeepsSound(a: Aggregate)
    requires Sound(a)
    ensures Sound(Crashed(a))
  {
  }

  /** Encode, decode and restore of a sound aggregate is the crash function, whenever it encodes at all. */
  lemma SoundRecordRestores(codec: FrameCodec, a: Aggregate)
    requires RoundTrips(codec) && Sound(a)
    ensures ResumeRecord(codec, a) == EncodeAggregate(codec, a)
    ensures ResumeRecord(codec, a).Ok? ==>
      DecodeFacts(codec, ResumeRecord(codec, a).value) == Ok(a) &&
      Restore(codec, ResumeRecord(codec, a).value) == Ok(Crashed(a))
  {
    SoundIsRestorable(a);
    if EncodeAggregate(codec, a).Ok? { DecodeInvertsEncode(codec, a); }
  }

  // Barrier.

  lemma RecordKeepsSound(a: Aggregate, request: ClientRequest)
    requires Sound(a) && RecordOperation(a, request).RecordPending?
    ensures Sound(RecordOperation(a, request).pending.successor)
    ensures request.DetachRequest? ==>
      a.replay.EmptyReplay? || a.replay.request.generation < request.detach.generation
  {
  }

  lemma ReleaseKeepsSound(a: Aggregate, operation: Operation)
    requires Sound(a)
    requires a.expected == Some(ExpectedOperation(operation.request, false, operation.authorization, None))
    ensures Sound(ReleaseCommitted(a, operation))
  {
  }

  lemma RecoverKeepsSound(a: Aggregate)
    requires Sound(a)
    ensures Sound(RecoverExpectedOperation(a).aggregate)
  {
  }

  lemma ResolveKeepsSound(a: Aggregate)
    requires Sound(a)
    ensures Sound(ResolveLostOperationAuthority(a).aggregate)
  {
  }

  lemma FateKeepsSound(a: Aggregate, correlation: Correlation)
    requires Sound(a)
    ensures Sound(RecordExpectedOperationFate(a, correlation).aggregate)
  {
  }

  // Replay.

  lemma AttemptKeepsSound(a: Aggregate)
    requires Sound(a)
    ensures Sound(TransportAttemptStarted(a).aggregate)
  {
  }

  /** The slot's own correlation was spent, and slot and replay settled together. */
  predicate SpendsDetachSoundly(before: Aggregate, after: Aggregate, correlation: Correlation) {
    CurrentAuthority(before, correlation) &&
    Sound(after) &&
    after == before.(expected := after.expected, replay := after.replay) &&
    (after.expected.Some? ==>
       !after.expected.value.issued && after.expected.value.request == before.expected.value.request) &&
    before.replay.RecordedReplay? && after.replay.RecordedReplay? && after.replay.request == before.replay.request
  }

  lemma TransportFateKeepsSound(a: Aggregate, correlation: Correlation)
    requires Sound(a)
    ensures var d := TransportFateDecided(a, correlation);
      d.ReplayApplied? ==> SpendsDetachSoundly(a, d.aggregate, correlation)
  {
  }

  lemma ApplyAttachKeepsSound(a: Aggregate, attach: AttachBound, correlation: Correlation)
    requires Sound(a)
    ensures var d := ApplyAttach(a, attach, correlation);
      d.ReplayApplied? ==> SpendsDetachSoundly(a, d.aggregate, correlation)
  {
  }

  lemma ApplyLeaveKeepsSound(a: Aggregate, leave: LeaveCommitted, correlation: Correlation)
    requires Sound(a)
    ensures var d := ApplyLeaveDurable(a, leave, correlation);
      d.ReplayApplied? ==> SpendsDetachSoundly(a, d.aggregate, correlation)
  {
  }

  lemma ApplyOutcomeKeepsSound(a: Aggregate, outcome: DetachOutcome, correlation: Correlation)
    requires Sound(a)
    ensures var d := ApplyDetachOutcome(a, outcome, correlation);
      d.ReplayApplied? ==> SpendsDetachSoundly(a, d.aggregate, correlation)
  {
  }

  // Reconnect.

  /** The reconnect machine shares no fact with the rest of the aggregate. */
  lemma ReconnectIsIndependent(a: Aggregate, r: Reconnect)
    requires Sound(a) && SoundReconnect(r)
    ensures Sound(a.(reconnect := r))
  {
  }

  /** Taking the abandonment breaks nothing. */
  lemma TakingAbandonmentKeepsSound(a: Aggregate)
    requires Sound(a)
    ensures Sound(a.(abandonment := None))
  {
  }

  lemma FreshIsSound()
    ensures Sound(FRESH)
  {
  }

  // Inbound.

  /** The attach receipts that rotate the credential. */
  function RotatedBy(value: ServerValue): (receipt: Option<AttachBound>) {
    match value
    case AttachBoundValue(v) => Some(v)
    case BoundValue(AttachReceipt(v)) => Some(v)
    case UnboundReceipt(AttachReceipt(v)) => Some(v)
    case _ => None
  }

  /** How one step may move a binding, given whether it applied an attach receipt. */
  predicate BindingAdvances(before: Binding, after: Binding, rotated: bool) {
    before.Unbound? ||
    (before.Left? && after == before) ||
    (!before.Left? && !after.Unbound? &&
     after.conversation == before.conversation && after.participant == before.participant &&
     (after.Left? || after.generation == before.generation + (if rotated then 1 else 0)))
  }

  /** The value names the request in the slot of a sound aggregate. */
  predicate Answers(a: Aggregate, value: ServerValue) {
    Sound(a) && a.expected.Some? && MatchesRequest(value, a.expected.value.request)
  }

  /** Retiring keeps the invariant and moves the binding lawfully. */
  predicate RetiresSoundly(a: Aggregate, value: ServerValue) {
    var after := RetireExpectedOperation(a, value);
    Sound(after) && BindingAdvances(a.binding, after.binding, RotatedBy(value).Some?)
  }

  lemma EchoNamesSlot(a: Aggregate, value: ServerValue)
    requires Answers(a, value) && EchoedEnvelope(value).Some?
    ensures a.expected.value.request.Identity() == EchoedEnvelope(value)
  {
    if !a.expected.value.request.ObserverRequest? { MatchesExactly(value, a.expected.value.request); }
  }

  lemma RotationRetiresSoundly(a: Aggregate, value: ServerValue)
    requires Answers(a, value) && RotatedBy(value).Some?
    ensures RetiresSoundly(a, value)
  {
    EchoNamesSlot(a, value);
    assert a.expected.value.request.attach == RotatedBy(value).value.request;
    assert !a.replay.IsActive();
  }

  lemma EnrollmentRetiresSoundly(a: Aggregate, value: ServerValue)
    requires Answers(a, value)
    requires value.EnrollBoundValue? || (value.BoundValue? && value.bound.EnrollmentReceipt?)
    ensures RetiresSoundly(a, value)
    ensures var binding := RetireExpectedOperation(a, value).binding;
      binding.Bound? && binding.generation == 1 &&
      binding.conversation == a.expected.value.request.Identity().value.Conversation()
  {
    EchoNamesSlot(a, value);
    assert a.expected.value.request.EnrollmentRequest?;
  }

  lemma DetachAnswerRetiresSoundly(a: Aggregate, value: ServerValue)
    requires Answers(a, value) && Answering(value)
    ensures RetiresSoundly(a, value)
  {
    EchoNamesSlot(a, value);
    assert a.expected.value.request == DetachRequest(a.replay.request);
  }

  lemma DepartureRetiresSoundly(a: Aggregate, value: ServerValue)
    requires Answers(a, value) && (value.LeaveCommittedValue? || value.RetiredValue?)
    ensures RetiresSoundly(a, value)
  {
    EchoNamesSlot(a, value);
    var request := a.expected.value.request;
    assert !a.binding.Unbound? && !request.EnrollmentRequest? ==>
      request.Identity().value.Conversation() == a.binding.conversation &&
      request.Identity().value.Participant() == Some(a.binding.participant);
  }

  /** Whatever no arm answers still leaves the slot and its replay settled together. */
  lemma RefusalRetiresSoundly(a: Aggregate, value: ServerValue)
    requires Answers(a, value)
    requires ApplyCorrelatedValue(a.(expected := None), value) == a.(expected := None)
    requires RotatedBy(value).None? && !Answering(value)
    ensures RetiresSoundly(a, value)
  {
    assert a.replay.IsActive() ==> a.expected.value.request == DetachRequest(a.replay.request);
  }

  lemma RetireKeepsSound(a: Aggregate, value: ServerValue)
    requires Answers(a, value)
    ensures RetiresSoundly(a, value)
  {
    if RotatedBy(value).Some? {
      RotationRetiresSoundly(a, value);
    } else if Answering(value) {
      DetachAnswerRetiresSoundly(a, value);
    } else if value.LeaveCommittedValue? || value.RetiredValue? {
      DepartureRetiresSoundly(a, value);
    } else if value.EnrollBoundValue? || (value.BoundValue? && value.bound.EnrollmentReceipt?) {
      EnrollmentRetiresSoundly(a, value);
    } else {
      RefusalRetiresSoundly(a, value);
    }
  }

  /** The replay retains the same detach, whatever its status. */
  predicate SameRetained(before: DetachReplay, after: DetachReplay) {
    before.RecordedReplay? ==> after.RecordedReplay? && after.request == before.request
  }

  /** Retiring clears the slot and leaves counter, reconnect machine, abandonment and envelope alone. */
  lemma RetireTouchesOnlyItsOwn(a: Aggregate, value: ServerValue)
    ensures var after := RetireExpectedOperation(a, value);
      after == a.(expected := None, binding := after.binding, replay := after.replay) &&
      SameRetained(a.replay, after.replay)
  {
  }

  /** The sealed door retires the slot exactly when it applies a value that does not bypass it. */
  lemma SealedDoorRetires(a: Aggregate, value: ServerValue, c: Correlation)
    requires Sound(a)
    ensures var d := DecideCorrelatedInbound(a, value, c);
      d.InboundApplied? ==>
        CurrentAuthority(a, c) &&
        (d.aggregate.expected.None? <==> !BypassesSlot(value)) &&
        (BypassesSlot(value) ==> d.aggregate == a) &&
        (!BypassesSlot(value) ==> Answers(a, value) && d.aggregate == RetireExpectedOperation(a, value))
  {
  }

  /** Exactly when the sealed door retires the slot. */
  lemma DoorRetiresExactly(a: Aggregate, value: ServerValue, c: Correlation)
    requires Sound(a)
    ensures var d := DecideCorrelatedInbound(a, value, c);
      a.expected.Some? && d.aggregate.expected.None? <==>
        CurrentAuthority(a, c) && !a.OperationLossPending() && !BypassesSlot(value) &&
        MatchesRequest(value, a.expected.value.request)
  {
    SealedDoorRetires(a, value, c);
  }
}
