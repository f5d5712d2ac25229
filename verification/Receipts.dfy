/** What the value that retires a slot leaves behind: the requests the new binding accepts, and the replay. */
module Receipts {
  import opened Outcomes
  import opened Wire
  import opened Participant
  import opened Correlations
  import opened Replays
  import opened Inbound
  import opened Resume
  import opened ResumeCodec
  import opened Soundness

  // The binding, told by the requests it accepts.

  /** Observer recovery, and what presents this identity and generation and any secret; a released binding needs one. */
  predicate AdmittedUnder(
    request: ClientRequest, conversation: U64, participant: U64, generation: Generation, secret: Secret, live: bool)
  {
    request.ObserverRequest? ||
    (Presents(request).Some? &&
     var (c, p, g, presented) := Presents(request).value;
     (c, p, g) == (conversation, participant, generation) &&
     (presented.Some? ==> presented.value == secret) && (live || presented.Some?))
  }

  function EnrolledBy(value: ServerValue): Option<EnrollBound> {
    match value
    case EnrollBoundValue(e) => Some(e)
    case BoundValue(EnrollmentReceipt(e)) => Some(e)
    case _ => None
  }

  /** An enrollment receipt binds the granted participant at generation one, under the granted secret and epoch. */
  lemma EnrollmentGrants(a: Aggregate, value: ServerValue, request: ClientRequest)
    requires EnrolledBy(value).Some?
    ensures var binding, e := RetireExpectedOperation(a, value).binding, EnrolledBy(value).value;
      binding.Bound? && binding.epoch == e.epoch &&
      (binding.AcceptsRequest(request) <==>
         AdmittedUnder(request, e.request.conversation, e.participant, 1, e.secret, true))
  {
  }

  /** An attach receipt binds at the successor generation under the new secret, live unless its binding was released. */
  lemma AttachGrants(a: Aggregate, value: ServerValue, request: ClientRequest)
    requires RotatedBy(value).Some?
    ensures var binding, v := RetireExpectedOperation(a, value).binding, RotatedBy(value).value;
      var live := !value.UnboundReceipt?;
      (live ==> binding.Bound? && binding.epoch == v.epoch) &&
      (binding.AcceptsRequest(request) <==> AdmittedUnder(
         request, v.request.conversation, v.request.participant, v.request.generation + 1, v.secret, live))
  {
  }

  /** A committed detach leaves only what presents the old secret. */
  lemma DetachKeepsTheSecret(a: Aggregate, d: DetachCommitted, request: ClientRequest)
    requires a.binding.Bound? || a.binding.Detached?
    ensures var after := RetireExpectedOperation(a, DetachCommittedValue(d));
      after.binding.AcceptsRequest(request) <==> AdmittedUnder(
        request, d.conversation, d.participant, d.epoch.generation, a.binding.secret, false)
  {
  }

  function DepartedGeneration(value: ServerValue): Generation
    requires value.LeaveCommittedValue? || value.RetiredValue?
  {
    if value.LeaveCommittedValue? then value.left.request.generation else value.retired.retiredGeneration
  }

  /** The participant a departure names: its own, or for a retired enrollment the one it had been given. */
  function DepartedParticipant(value: ServerValue): Option<U64> {
    if value.RetiredValue? && value.retired.RetiredEnrollment? then Some(value.retired.participant)
    else if EchoedEnvelope(value).Some? then EchoedEnvelope(value).value.Participant()
    else None
  }

  /** Leave and retirement end the binding for good, at the generation they name; nothing is accepted again. */
  lemma DepartureEndsBinding(a: Aggregate, value: ServerValue, request: ClientRequest)
    requires value.LeaveCommittedValue? || value.RetiredValue?
    ensures var binding := RetireExpectedOperation(a, value).binding;
      !binding.AcceptsRequest(request) && binding.Left? &&
      Some(binding.conversation) == Some(EchoedEnvelope(value).value.Conversation()) &&
      Some(binding.participant) == DepartedParticipant(value) &&
      binding.generation == DepartedGeneration(value)
  {
  }

  predicate MovesBinding(value: ServerValue) {
    EnrolledBy(value).Some? || RotatedBy(value).Some? || value.DetachCommittedValue? ||
    value.LeaveCommittedValue? || value.RetiredValue?
  }

  /** No other value moves the binding, a released enrollment receipt included. */
  lemma OtherValuesKeepBinding(a: Aggregate, value: ServerValue)
    requires !MovesBinding(value)
    ensures RetireExpectedOperation(a, value).binding == a.binding
  {
  }

  // The replay.

  /**
   A retired detach keeps the very value that retired it, under the tag of its kind, unless
   that value is a retirement at or past its generation.
   */
  lemma RetiredDetachKeepsItsAnswer(a: Aggregate, value: ServerValue)
    requires Answers(a, value) && a.expected.value.request.DetachRequest?
    ensures var replay := RetireExpectedOperation(a, value).replay;
      replay.RecordedReplay? && replay.request == a.expected.value.request.detach &&
      if value.RetiredValue? && value.retired.retiredGeneration >= replay.request.generation
      then replay.status == LeaveSuperseded
      else replay.status.Terminal? && TerminalValue(replay.status.terminal) == value &&
           (replay.status.terminal.RefusedTerminal? <==> !Answering(value))
  {
    if EchoedEnvelope(value).Some? { EchoNamesSlot(a, value); }
  }

  /** What a departure ends: a replay of the departed generation or an older one it retires. */
  predicate DepartureEnds(value: ServerValue, replay: DetachReplay)
    requires replay.RecordedReplay?
  {
    (value.LeaveCommittedValue? && DepartedGeneration(value) == replay.request.generation) ||
    (value.RetiredValue? && DepartedGeneration(value) >= replay.request.generation)
  }

  /** Retiring any other slot supersedes the replay on an attach, ends it on a departure, and else leaves it. */
  lemma OtherSlotsMoveReplayExactly(a: Aggregate, value: ServerValue)
    requires Answers(a, value) && !a.expected.value.request.DetachRequest?
    ensures RetireExpectedOperation(a, value).replay ==
      if a.replay.EmptyReplay? then EmptyReplay
      else if RotatedBy(value).Some? then RecordedReplay(a.replay.request, Superseded)
      else if DepartureEnds(value, a.replay) then RecordedReplay(a.replay.request, LeaveSuperseded)
      else a.replay
  {
    if EchoedEnvelope(value).Some? { EchoNamesSlot(a, value); }
  }
}
