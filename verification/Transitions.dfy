/** The client transitions against each other: when each applies, and which of them undo or stand for one another. */
module Transitions {
  import opened Outcomes
  import opened Wire
  import opened Participant
  import opened Correlations
  import opened Replays
  import opened Barrier
  import opened Inbound
  import opened Reconnects

  // Admission.

  /** A detach finds no replay, its own still parked, or an older generation's that an attach or an answer has ended. */
  predicate ReplayAdmits(replay: DetachReplay, e: DetachEnvelope) {
    replay.EmptyReplay? || replay == RecordedReplay(e, Parked) ||
    (replay.request.conversation == e.conversation && replay.request.participant == e.participant &&
     replay.request.generation < e.generation && (replay.status.Superseded? || replay.status.Terminal?))
  }

  /** Everything but the replay admits the request: the checks in front of it, in any order. */
  predicate SlotAdmits(a: Aggregate, request: ClientRequest) {
    a.binding.AcceptsRequest(request) && !request.AckRequest? && a.expected.None? &&
    !(a.abandonment.Some? && request.ObserverRequest?) && a.nextOperationAuthorization < U64_MAX
  }

  /** What is pending: the next number, an unissued slot, a detach parked in its replay, and nothing else moved. */
  lemma AdmittedExactly(a: Aggregate, request: ClientRequest)
    ensures RecordOperation(a, request).RecordPending? <==>
      SlotAdmits(a, request) && (request.DetachRequest? ==> ReplayAdmits(a.replay, request.detach))
    ensures RecordOperation(a, request).RecordPending? ==>
      var pending, number := RecordOperation(a, request).pending, a.nextOperationAuthorization + 1;
      pending.operation == Operation(request, number) &&
      pending.successor == a.(
        nextOperationAuthorization := number,
        expected := Some(ExpectedOperation(request, false, number, None)),
        replay := if request.DetachRequest? then RecordedReplay(request.detach, Parked) else a.replay)
    ensures RecordOperation(a, request).RecordContinuous? <==> a.binding.AcceptsRequest(request) && request.AckRequest?
    ensures RecordOperation(a, request).RecordContinuous? ==>
      RecordOperation(a, request).operation == Operation(request, 0)
  {
  }

  /** Which refusal a request meets: each names the first thing that stands in its way. */
  lemma RefusedExactly(a: Aggregate, request: ClientRequest)
    requires RecordOperation(a, request).RecordRefused?
    ensures match RecordOperation(a, request).reason
      case AlreadyDead => a.binding.Left?
      case BindingMismatch => !a.binding.Left? && !a.binding.AcceptsRequest(request)
      case OutstandingOperation => a.binding.AcceptsRequest(request) && a.expected.Some?
      case AbandonmentPending =>
        a.binding.AcceptsRequest(request) && a.expected.None? && a.abandonment.Some? && request.ObserverRequest?
      case AuthorizationExhausted =>
        a.binding.AcceptsRequest(request) && a.expected.None? && a.nextOperationAuthorization == U64_MAX &&
        !(a.abandonment.Some? && request.ObserverRequest?)
      case DetachReplayIncompatible =>
        SlotAdmits(a, request) && request.DetachRequest? &&
        a.replay.RecordedReplay? && a.replay.request == request.detach && !a.replay.status.Parked?
      case DetachReplayOutstanding =>
        SlotAdmits(a, request) && request.DetachRequest? && !ReplayAdmits(a.replay, request.detach) &&
        a.replay.request != request.detach
  {
  }

  // Releasing and losing send authority.

  /** Recovery is the release of the committed record it restores, once. */
  lemma RecoveryIsRelease(a: Aggregate)
    ensures match RecoverExpectedOperation(a)
      case Recovered(after, operation) =>
        a.expected.Some? && !a.expected.value.issued &&
        operation == Operation(a.expected.value.request, a.expected.value.authorization) &&
        after == ReleaseCommitted(a, operation) &&
        RecoverExpectedOperation(after) == RecoveryNotAvailable(after, true)
      case RecoveryNotAvailable(after, alreadyIssued) =>
        after == a && (a.expected.Some? ==> a.expected.value.issued) && alreadyIssued == a.expected.Some?
  {
  }

  /** A fate clears exactly the live non-detach slot; a detach's own correlation is sent to its replay instead. */
  lemma FateAppliesExactly(a: Aggregate, c: Correlation)
    ensures var d := RecordExpectedOperationFate(a, c);
      var live := CurrentAuthority(a, c) && !a.OperationLossPending();
      (d.FateRecorded? <==> live && !a.expected.value.request.DetachRequest?) &&
      (d.FateRecorded? ==> d.aggregate == a.(expected := None) && d.request == a.expected.value.request) &&
      (d.FateRefused? ==>
         match d.reason
         case DetachUsesReplayFate => live && a.expected.value.request.DetachRequest?
         case NoIssuedOperation => a.expected.None? || !a.expected.value.issued
         case FateLossPending => a.OperationLossPending() && a.expected.value.issued
         case StaleCorrelation =>
           a.expected.Some? && a.expected.value.issued && !a.OperationLossPending() && !CurrentAuthority(a, c))
  {
  }

  /** The detach and the replay that carries it are both out under this correlation. */
  predicate InFlightUnder(a: Aggregate, c: Correlation) {
    CurrentAuthority(a, c) && !a.OperationLossPending() &&
    a.replay.RecordedReplay? && a.replay.status.InFlight? &&
    a.expected.value.request == DetachRequest(a.replay.request)
  }

  /** The first send puts a parked replay in flight, and moves no other. */
  lemma FirstSendStartsParkedOnly(replay: DetachReplay)
    ensures var after := MarkInitialAttemptStarted(replay);
      if replay.RecordedReplay? && replay.status == Parked then after == RecordedReplay(replay.request, InFlight)
      else after == replay
  {
  }

  /** A replay attempt starts exactly for a parked detach that the slot holds under a number. */
  lemma AttemptStartsExactly(a: Aggregate)
    ensures TransportAttemptStarted(a).AttemptStarted? <==>
      a.replay.RecordedReplay? && a.replay.status.Parked? && a.expected.Some? &&
      a.expected.value.request == DetachRequest(a.replay.request) && a.expected.value.authorization > 0
  {
  }

  /** A transport fate undoes the attempt: starting again gives back the same aggregate and the same number. */
  lemma FateUndoesAttempt(a: Aggregate, c: Correlation)
    ensures TransportFateDecided(a, c).ReplayApplied? <==> InFlightUnder(a, c)
    ensures TransportFateDecided(a, c).ReplayRefused? ==>
      TransportFateDecided(a, c).reason == (if a.OperationLossPending() then LostAuthorityPending else InvalidStatus)
    ensures InFlightUnder(a, c) && c.authorization != 0 ==>
      TransportAttemptStarted(TransportFateDecided(a, c).aggregate) ==
        AttemptStarted(a, TransportAttempt(a.replay.request, c.authorization))
  {
  }

  /** And the attempt undoes the fate: a parked, unissued detach is where it was after start and fate. */
  lemma AttemptUndoesFate(a: Aggregate)
    requires a.expected.Some? ==> !a.expected.value.issued && a.expected.value.lost.None?
    ensures match TransportAttemptStarted(a)
      case AttemptRefused(after, reason) => after == a && reason == InvalidStatus
      case AttemptStarted(after, attempt) =>
        InFlightUnder(after, Correlation(attempt.authorization)) &&
        attempt.request == a.replay.request &&
        TransportFateDecided(after, Correlation(attempt.authorization)) == ReplayApplied(a)
  {
  }

  /** Testimony that the slot's authority was destroyed. */
  function Testified(a: Aggregate): Aggregate
    requires a.expected.Some?
  {
    a.(expected := Some(a.expected.value.(lost := Some(OperationLossKind(a.expected.value.request)))))
  }

  /** Resolving a loss settles the slot exactly as the live authority's own fate would have. */
  lemma LossResolvesAsFate(a: Aggregate, c: Correlation)
    requires CurrentAuthority(a, c) && !a.OperationLossPending()
    requires a.expected.value.request.DetachRequest? ==> InFlightUnder(a, c)
    ensures var resolved := ResolveLostOperationAuthority(Testified(a));
      !resolved.NoPendingTestimony? &&
      resolved.testimony == OperationLossKind(a.expected.value.request) &&
      resolved.request == a.expected.value.request &&
      resolved.aggregate ==
        if a.expected.value.request.DetachRequest? then TransportFateDecided(a, c).aggregate
        else RecordExpectedOperationFate(a, c).aggregate
  {
  }

  // Ending a replay from outside.

  predicate SameParticipant(replay: DetachReplay, conversation: U64, participant: U64) {
    replay.RecordedReplay? && replay.request.conversation == conversation && replay.request.participant == participant
  }

  /** An attach ends a replay of its participant at the generation it presented or an older one. */
  lemma AttachSupersedesExactly(replay: DetachReplay, attach: AttachBound)
    ensures SupersededBy(replay, attach) <==>
      SameParticipant(replay, attach.request.conversation, attach.request.participant) &&
      replay.request.generation <= attach.request.generation
    ensures SupersedeByAttach(replay, attach) != replay ==> SupersedeByAttach(replay, attach).status == Superseded
  {
  }

  /** A refusal settles only the active replay of the very detach it refused. */
  lemma RefusalSettlesOnlyItsOwn(replay: DetachReplay, detach: DetachEnvelope, value: ServerValue)
    ensures SettleRefusedAuthority(replay, detach, value) ==
      if replay == RecordedReplay(detach, Parked) || replay == RecordedReplay(detach, InFlight)
      then RecordedReplay(detach, Terminal(RefusedTerminal(value)))
      else replay
  {
  }

  /** A leave ends a replay of exactly the participant and generation it left. */
  lemma LeaveSupersedesExactly(replay: DetachReplay, leave: LeaveCommitted)
    ensures LeftBy(replay, leave) <==>
      replay.RecordedReplay? &&
      replay.request == DetachEnvelope(
        leave.request.conversation, leave.request.participant, leave.request.generation, replay.request.token)
  {
  }

  /** A retirement ends a replay of its participant at its generation or an older one. */
  lemma RetirementSupersedesExactly(replay: DetachReplay, conversation: U64, participant: U64, retired: Generation)
    ensures SupersedeByRetirement(replay, conversation, participant, retired) ==
      if SameParticipant(replay, conversation, participant) && replay.request.generation <= retired
      then RecordedReplay(replay.request, LeaveSuperseded)
      else replay
  {
  }

  /** Another participant's attach or leave is refused, and its retirement is ignored. */
  lemma ForeignParticipantIsRefused(
    a: Aggregate, attach: AttachBound, leave: LeaveCommitted, retired: Generation, c: Correlation)
    ensures !SameParticipant(a.replay, attach.request.conversation, attach.request.participant) ==>
      ApplyAttach(a, attach, c).ReplayRefused?
    ensures !SameParticipant(a.replay, leave.request.conversation, leave.request.participant) ==>
      ApplyLeaveDurable(a, leave, c).ReplayRefused? &&
      SupersedeByRetirement(a.replay, leave.request.conversation, leave.request.participant, retired) == a.replay
  {
  }

  /** Slot and replay end together: the detach keeps its envelope and takes this status. */
  function Ended(a: Aggregate, status: ReplayStatus): Aggregate
    requires a.replay.RecordedReplay?
  {
    a.(expected := None, replay := RecordedReplay(a.replay.request, status))
  }

  lemma AttachEndsReplayExactly(a: Aggregate, attach: AttachBound, c: Correlation)
    ensures ApplyAttach(a, attach, c) ==
      if InFlightUnder(a, c) && SupersededBy(a.replay, attach) then ReplayApplied(Ended(a, Superseded))
      else ReplayRefused(a, if a.OperationLossPending() then LostAuthorityPending else ForeignInput)
  {
  }

  lemma LeaveEndsReplayExactly(a: Aggregate, leave: LeaveCommitted, c: Correlation)
    ensures ApplyLeaveDurable(a, leave, c) ==
      if InFlightUnder(a, c) && LeftBy(a.replay, leave) then ReplayApplied(Ended(a, LeaveSuperseded))
      else ReplayRefused(a, if a.OperationLossPending() then LostAuthorityPending else ForeignInput)
  {
  }

  lemma OutcomeEndsReplayExactly(a: Aggregate, outcome: DetachOutcome, c: Correlation)
    ensures ApplyDetachOutcome(a, outcome, c) ==
      if InFlightUnder(a, c) && outcome.Request() == a.replay.request
      then ReplayApplied(Ended(a, Terminal(outcome.AsTerminal())))
      else ReplayRefused(a,
        if a.OperationLossPending() then LostAuthorityPending
        else if InFlightUnder(a, c) then ForeignInput else InvalidStatus)
  {
  }

  // The two doors.

  /** A value beside the slot is applied to a living binding, and an acknowledgement answer only to its own. */
  predicate AdmitsBypass(a: Aggregate, value: ServerValue) {
    BypassesSlot(value) && !a.binding.Left? && (value.AckAnswer? ==> a.binding.MatchesAck(value.ack))
  }

  predicate AdmitsAnswer(a: Aggregate, value: ServerValue) {
    !BypassesSlot(value) && a.expected.Some? && a.expected.value.lost.None? &&
    a.binding.AcceptsRequest(a.expected.value.request) && MatchesRequest(value, a.expected.value.request)
  }

  /** The unsealed door applies exactly the bypassing values it admits, and never moves the aggregate. */
  lemma UnsealedDoorExactly(a: Aggregate, value: ServerValue)
    ensures DecideInbound(a, value).aggregate == a
    ensures DecideInbound(a, value).InboundApplied? <==> AdmitsBypass(a, value)
  {
  }

  /** The sealed door also retires the slot for the answers it admits, and only under current authority. */
  lemma SealedDoorExactly(a: Aggregate, value: ServerValue, c: Correlation)
    ensures var d := DecideCorrelatedInbound(a, value, c);
      (d.InboundApplied? <==> CurrentAuthority(a, c) && (AdmitsBypass(a, value) || AdmitsAnswer(a, value))) &&
      d.aggregate ==
        if d.InboundApplied? && AdmitsAnswer(a, value) then RetireExpectedOperation(a, value) else a
  {
  }

  /** Why a door refuses: each reason names its own obstacle, under the ones before it. */
  lemma DoorRefusesExactly(a: Aggregate, value: ServerValue, sealed: bool)
    requires DecideInboundInner(a, value, sealed).InboundRefused?
    ensures var reason, beside := DecideInboundInner(a, value, sealed).reason, BypassesSlot(value);
      (reason.InboundAlreadyDead? <==> a.binding.Left?) &&
      (reason.InboundLossPending? <==> !a.binding.Left? && !beside && a.OperationLossPending()) &&
      (reason.MissingResponseAuthority? <==>
         !a.binding.Left? && !beside && a.expected.Some? && !a.OperationLossPending() && !sealed) &&
      (a.expected.None? && !beside && !a.binding.Left? ==> reason.DelayedResponse?) &&
      (beside && !a.binding.Left? ==> reason.ForeignResponse?) &&
      (a.expected.Some? && !a.OperationLossPending() && !beside && !a.binding.Left? && sealed ==>
         reason ==
           if a.binding.AcceptsRequest(a.expected.value.request) then MismatchReason(value, a.expected.value.request)
           else ForeignResponse)
  {
  }

  /** The sealed door refuses a stale correlation before it looks at the value. */
  lemma StaleCorrelationIsDelayed(a: Aggregate, value: ServerValue, c: Correlation)
    requires !CurrentAuthority(a, c)
    ensures DecideCorrelatedInbound(a, value, c) == InboundRefused(a, DelayedResponse)
  {
  }

  /** An abandonment is handed out once, and nothing else moves. */
  lemma AbandonmentIsTakenOnce(a: Aggregate)
    ensures var (after, taken) := TakeAbandonment(a);
      taken == a.abandonment && TakeAbandonment(after) == (after, None) && after.(abandonment := taken) == a
  {
  }

  /** A value echoes the participant and kind of request the slot holds, though not that very request. */
  predicate SameOrigin(value: ServerValue, request: ClientRequest) {
    match request
    case ObserverRequest(_) =>
      value.ObserverRecoveryAccepted? || value.InvalidObserverEpoch? || value.InvalidObserverEpochList?
    case _ =>
      EchoedEnvelope(value).Some? &&
      var echoed, own := EchoedEnvelope(value).value, request.Identity().value;
      echoed.Class() == own.Class() && echoed.Conversation() == own.Conversation() &&
      echoed.Participant() == own.Participant()
  }

  /** A miss is ambiguous for a record, delayed for any other request of its origin, and else foreign. */
  lemma MismatchExactly(value: ServerValue, request: ClientRequest)
    ensures MismatchReason(value, request) ==
      if !SameOrigin(value, request) then ForeignResponse
      else if request.RecordRequest? then AmbiguousResponse
      else DelayedResponse
  {
  }

  // The reconnect machine.

  /** One event, one permit, one attempt: each accepts exactly what the one before handed out. */
  lemma ReconnectRoundExactly(a: Aggregate, event: FreshEvent, fate: AttemptFate)
    requires a.reconnect.lost.None?
    ensures match RecordFreshEvent(a, event)
      case PermitRefused(after, _, reason) =>
        after == a &&
        (reason.AuthorizationOutstanding? <==> !a.reconnect.state.ReconnectParked? && !a.reconnect.state.Online?)
      case Permitted(permitted, permit) =>
        var attempt := Attempt(permit.authorization, event);
        var state := if fate.Connected? then Online else ReconnectParked;
        permit == Permit(a.reconnect.nextAuthorization + 1, event) &&
        RedeemAttempt(permitted, permit).AttemptBegun? && RedeemAttempt(permitted, permit).attempt == attempt &&
        RecordAttemptFate(RedeemAttempt(permitted, permit).aggregate, attempt, fate) ==
          AttemptFateRecorded(a.(reconnect := Reconnect(state, permit.authorization, None)))
  {
  }

  lemma EventPermittedExactly(a: Aggregate, event: FreshEvent)
    ensures RecordFreshEvent(a, event).Permitted? <==>
      (a.reconnect.state.ReconnectParked? || a.reconnect.state.Online?) && a.reconnect.nextAuthorization < U64_MAX
    ensures RecordFreshEvent(a, event).Permitted? ==>
      RecoverReconnectPermit(RecordFreshEvent(a, event).aggregate).PermitNotAvailable?
  {
  }

  /** A permit or attempt is accepted if and only if it is the outstanding one and no loss is pending. */
  lemma RedeemedExactly(a: Aggregate, permit: Permit)
    ensures RedeemAttempt(a, permit).AttemptBegun? <==>
      a.reconnect.lost.None? &&
      (a.reconnect.state == PermitOutstanding(permit.authorization, permit.event, true) ||
       a.reconnect.state == PermitOutstanding(permit.authorization, permit.event, false))
    ensures RedeemAttempt(a, permit).RedeemRefused? ==>
      match RedeemAttempt(a, permit).reason
      case PermitLossPending => a.reconnect.lost.Some?
      case NoPermit => a.reconnect.lost.None? && !a.reconnect.state.PermitOutstanding?
      case StalePermit => a.reconnect.lost.None? && a.reconnect.state.PermitOutstanding?
    ensures RedeemAttempt(a, permit).AttemptBegun? ==>
      RecordAttemptFate(RedeemAttempt(a, permit).aggregate, Attempt(permit.authorization, permit.event), Failed) ==
        AttemptFateRecorded(a.(reconnect := a.reconnect.(state := ReconnectParked)))
  {
  }

  lemma AttemptFateExactly(a: Aggregate, attempt: Attempt, fate: AttemptFate)
    ensures RecordAttemptFate(a, attempt, fate).AttemptFateRecorded? <==>
      a.reconnect.lost.None? && a.reconnect.state == AttemptInProgress(attempt.authorization, attempt.event)
    ensures RecordAttemptFate(a, attempt, fate).AttemptFateRefused? ==>
      match RecordAttemptFate(a, attempt, fate).reason
      case AttemptLossPending => a.reconnect.lost.Some?
      case NoAttempt => a.reconnect.lost.None? && !a.reconnect.state.AttemptInProgress?
      case StaleAttempt => a.reconnect.lost.None? && a.reconnect.state.AttemptInProgress?
    ensures RecordAttemptFate(a, attempt, fate).AttemptFateRecorded? ==>
      RecordAttemptFate(a, attempt, fate).aggregate.reconnect ==
        a.reconnect.(state := if fate.Connected? then Online else ReconnectParked)
  {
  }

  /** A restored permit is released once and then redeems like any other. */
  lemma RecoveredPermitRedeems(a: Aggregate)
    ensures match RecoverReconnectPermit(a)
      case PermitNotAvailable(after) =>
        after == a && (a.reconnect.state.PermitOutstanding? ==> a.reconnect.state.issued)
      case PermitRecovered(after, permit) =>
        a.reconnect.state == PermitOutstanding(permit.authorization, permit.event, false) &&
        after.(reconnect := a.reconnect) == a && after.reconnect.(state := a.reconnect.state) == a.reconnect &&
        RecoverReconnectPermit(after) == PermitNotAvailable(after) &&
        (a.reconnect.lost.None? ==> RedeemAttempt(after, permit) == RedeemAttempt(a, permit))
  {
  }

  /** The machine with its released permit or attempt testified lost. */
  function ReconnectTestified(a: Aggregate): Aggregate {
    a.(reconnect := a.reconnect.(lost := ReconnectLossKind(a.reconnect.state)))
  }

  /** Resolving a lost attempt parks the machine exactly as its failure would have. */
  lemma ReconnectLossResolvesAsFailure(a: Aggregate, attempt: Attempt)
    requires a.reconnect.lost.None? && a.reconnect.state == AttemptInProgress(attempt.authorization, attempt.event)
    ensures ResolveLostReconnectAuthority(ReconnectTestified(a)) ==
      ReconnectLossRecorded(RecordAttemptFate(a, attempt, Failed).aggregate, ReconnectAttempt)
    ensures ResolveLostReconnectAuthority(RecordAttemptFate(a, attempt, Failed).aggregate).NoReconnectTestimony?
  {
  }

  /** Resolving a lost permit is redeeming it and failing: no connection is ever claimed. */
  lemma PermitLossResolvesAsFailure(a: Aggregate, permit: Permit)
    requires a.reconnect.lost.None?
    requires a.reconnect.state == PermitOutstanding(permit.authorization, permit.event, true)
    ensures var attempt := Attempt(permit.authorization, permit.event);
      ResolveLostReconnectAuthority(ReconnectTestified(a)) == ReconnectLossRecorded(
        RecordAttemptFate(RedeemAttempt(a, permit).aggregate, attempt, Failed).aggregate, ReconnectPermit)
  {
  }
}
