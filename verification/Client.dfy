/**
 The aggregate as the program holds it: one object whose fields the transitions update in
 place. Every method is tied to the transition function of the same step, so whatever is
 proved of those functions holds of the object. A refused call leaves the object as it was.
 */
module Clients {
  import opened Outcomes
  import opened Wire
  import opened Participant
  import opened Correlations
  import opened Replays
  import opened Barrier
  import opened Inbound
  import opened Reconnects
  import opened Resume
  import opened ResumeCodec
  import ResumeReader
  import ResumeWriter
  import opened Soundness

  datatype RecordOutcome =
    | PendingOutcome(operation: Operation, priorReplay: Option<DetachReplay>)
    | ContinuousOutcome(operation: Operation)
    | RefusedOutcome(reason: RecordRefusal)

  datatype LossOutcome =
    | RecordedLoss(request: ClientRequest, testimony: LostAuthorityKind)
    | ParkedLoss(request: ClientRequest, testimony: LostAuthorityKind)
    | NoLoss

  class Client {
    var binding: Binding
    var expected: Option<ExpectedOperation>
    var nextOperationAuthorization: U64
    var replay: DetachReplay
    var reconnect: Reconnect
    var abandonment: Option<Abandonment>

    function View(): Aggregate
      reads this
    {
      Aggregate(binding, expected, nextOperationAuthorization, replay, reconnect, abandonment)
    }

    constructor ()
      ensures View() == FRESH
    {
      binding := Unbound;
      expected := None;
      nextOperationAuthorization := 0;
      replay := EmptyReplay;
      reconnect := Reconnect(ReconnectParked, 0, None);
      abandonment := None;
    }

    constructor Holding(a: Aggregate)
      ensures View() == a
    {
      binding := a.binding;
      expected := a.expected;
      nextOperationAuthorization := a.nextOperationAuthorization;
      replay := a.replay;
      reconnect := a.reconnect;
      abandonment := a.abandonment;
    }

    // The replay's own transitions.

    method MarkAttemptStarted()
      modifies this`replay
      ensures replay == MarkInitialAttemptStarted(old(replay))
    {
      if replay.RecordedReplay? && replay.status.Parked? {
        replay := replay.(status := InFlight);
      }
    }

    method SupersedeReplayByAttach(attach: AttachBound) returns (applied: bool)
      modifies this`replay
      ensures replay == SupersedeByAttach(old(replay), attach) && applied == SupersededBy(old(replay), attach)
    {
      applied := SupersededBy(replay, attach);
      if applied {
        replay := replay.(status := Superseded);
      }
    }

    method SupersedeReplayByLeave(leave: LeaveCommitted) returns (applied: bool)
      modifies this`replay
      ensures replay == SupersedeByLeave(old(replay), leave) && applied == LeftBy(old(replay), leave)
    {
      applied := LeftBy(replay, leave);
      if applied {
        replay := replay.(status := LeaveSuperseded);
      }
    }

    method SupersedeReplayByRetirement(conversation: U64, participant: U64, retired: Generation)
      modifies this`replay
      ensures replay == SupersedeByRetirement(old(replay), conversation, participant, retired)
    {
      if replay.RecordedReplay? && replay.request.conversation == conversation &&
         replay.request.participant == participant && retired >= replay.request.generation {
        replay := replay.(status := LeaveSuperseded);
      }
    }

    method TerminalizeReplay(outcome: DetachOutcome) returns (applied: bool)
      modifies this`replay
      ensures replay == TerminalizeWith(old(replay), outcome)
      ensures applied == (old(replay).RecordedReplay? && outcome.Request() == old(replay).request)
    {
      applied := replay.RecordedReplay? && outcome.Request() == replay.request;
      if applied {
        replay := replay.(status := Terminal(outcome.AsTerminal()));
      }
    }

    method SettleReplay(detach: DetachEnvelope, value: ServerValue)
      modifies this`replay
      ensures replay == SettleRefusedAuthority(old(replay), detach, value)
    {
      if replay.IsActive() && replay.request == detach {
        replay := replay.(status := Terminal(RefusedTerminal(value)));
      }
    }

    // The barrier.

    /** A detach enters the replay lifecycle; the prior replay comes back for an abort. */
    method AdmitReplay(request: ClientRequest) returns (r: Result<Option<DetachReplay>, RecordRefusal>)
      modifies this`replay
      ensures match AdmitDetachReplay(old(replay), request)
        case Admitted(after, prior) => r == Ok(prior) && replay == after
        case NotAdmitted(reason) => r == Err(reason) && replay == old(replay)
    {
      if !request.DetachRequest? {
        return Ok(None);
      }
      var prior := replay;
      if replay.EmptyReplay? {
        replay := RecordedReplay(request.detach, Parked);
        return Ok(Some(prior));
      }
      if replay.request == request.detach {
        return if replay.status.Parked? then Ok(Some(prior)) else Err(DetachReplayIncompatible);
      }
      if !CanReplaceWith(replay, request.detach) {
        return Err(DetachReplayOutstanding);
      }
      replay := RecordedReplay(request.detach, Parked);
      r := Ok(Some(prior));
    }

    method Record(request: ClientRequest) returns (outcome: RecordOutcome)
      modifies this
      ensures match RecordOperation(old(View()), request)
        case RecordPending(p) => View() == p.successor && outcome == PendingOutcome(p.operation, p.priorReplay)
        case RecordContinuous(a, operation) => View() == a && outcome == ContinuousOutcome(operation)
        case RecordRefused(a, _, reason) => View() == a && outcome == RefusedOutcome(reason)
    {
      if !binding.AcceptsRequest(request) {
        return RefusedOutcome(if binding.Left? then AlreadyDead else BindingMismatch);
      }
      if request.AckRequest? {
        return ContinuousOutcome(Operation(request, 0));
      }
      if expected.Some? {
        return RefusedOutcome(OutstandingOperation);
      }
      if abandonment.Some? && request.ObserverRequest? {
        return RefusedOutcome(AbandonmentPending);
      }
      if nextOperationAuthorization == U64_MAX {
        return RefusedOutcome(RecordRefusal.AuthorizationExhausted);
      }
      var authorization := nextOperationAuthorization + 1;
      var admitted := AdmitReplay(request);
      if admitted.Err? {
        return RefusedOutcome(admitted.error);
      }
      nextOperationAuthorization := authorization;
      expected := Some(ExpectedOperation(request, false, authorization, None));
      outcome := PendingOutcome(Operation(request, authorization), admitted.value);
    }

    /** Aborting a pending record. */
    method Abort(operation: Operation, priorReplay: Option<DetachReplay>)
      modifies this
      ensures View() == AbortRecord(PendingRecord(old(View()), operation, priorReplay))
    {
      expected := None;
      nextOperationAuthorization := if operation.authorization == 0 then 0 else operation.authorization - 1;
      if priorReplay.Some? {
        replay := priorReplay.value;
      }
    }

    /** Recording and then aborting leaves every field as it was, whatever the request. */
    method RecordAndAbort(request: ClientRequest)
      modifies this
      ensures View() == old(View())
    {
      var outcome := Record(request);
      if outcome.PendingOutcome? {
        Abort(outcome.operation, outcome.priorReplay);
      }
    }

    /** Releasing a committed operation. */
    method Release(operation: Operation)
      modifies this
      ensures View() == ReleaseCommitted(old(View()), operation)
    {
      if expected.Some? {
        expected := Some(expected.value.(issued := true));
      }
      if operation.request.DetachRequest? {
        MarkAttemptStarted();
      }
    }

    method Recover() returns (r: Result<Operation, bool>)
      modifies this
      ensures match RecoverExpectedOperation(old(View()))
        case Recovered(a, operation) => View() == a && r == Ok(operation)
        case RecoveryNotAvailable(a, alreadyIssued) => View() == a && r == Err(alreadyIssued)
    {
      if expected.None? {
        return Err(false);
      }
      if expected.value.issued {
        return Err(true);
      }
      expected := Some(expected.value.(issued := true));
      if expected.value.request.DetachRequest? {
        MarkAttemptStarted();
      }
      r := Ok(Operation(expected.value.request, expected.value.authorization));
    }

    method ResolveOperationLoss() returns (outcome: LossOutcome)
      modifies this
      ensures match ResolveLostOperationAuthority(old(View()))
        case LossRecorded(a, request, testimony) => View() == a && outcome == RecordedLoss(request, testimony)
        case LossParked(a, request, testimony) => View() == a && outcome == ParkedLoss(request, testimony)
        case NoPendingTestimony(a) => View() == a && outcome == NoLoss
    {
      if expected.None? || expected.value.lost.None? {
        return NoLoss;
      }
      var testimony, request := expected.value.lost.value, expected.value.request;
      expected := Some(expected.value.(lost := None));
      if request.DetachRequest? {
        expected := Some(expected.value.(issued := false));
        if replay.RecordedReplay? {
          replay := replay.(status := Parked);
        }
        return ParkedLoss(request, testimony);
      }
      expected := None;
      outcome := RecordedLoss(request, testimony);
    }

    method RecordFate(correlation: Correlation) returns (r: Result<ClientRequest, FateRefusal>)
      modifies this
      ensures match RecordExpectedOperationFate(old(View()), correlation)
        case FateRecorded(a, request) => View() == a && r == Ok(request)
        case FateRefused(a, _, reason) => View() == a && r == Err(reason)
    {
      if expected.None? || !expected.value.issued {
        return Err(NoIssuedOperation);
      }
      if expected.value.lost.Some? {
        return Err(FateLossPending);
      }
      if expected.value.authorization != correlation.authorization {
        return Err(StaleCorrelation);
      }
      if expected.value.request.DetachRequest? {
        return Err(DetachUsesReplayFate);
      }
      var request := expected.value.request;
      expected := None;
      r := Ok(request);
    }

    method TakeAbandoned() returns (taken: Option<Abandonment>)
      modifies this
      ensures (View(), taken) == TakeAbandonment(old(View()))
    {
      taken := abandonment;
      abandonment := None;
    }

    // Detach replay transitions.

    method StartTransportAttempt() returns (r: Result<TransportAttempt, ReplayRefusal>)
      modifies this
      ensures match TransportAttemptStarted(old(View()))
        case AttemptStarted(a, attempt) => View() == a && r == Ok(attempt)
        case AttemptRefused(a, reason) => View() == a && r == Err(reason)
    {
      if !replay.RecordedReplay? || !replay.status.Parked? {
        return Err(InvalidStatus);
      }
      if !ExpectsDetach(expected, replay.request) || expected.value.authorization == 0 {
        return Err(InvalidStatus);
      }
      var authorization := expected.value.authorization;
      expected := Some(expected.value.(issued := true));
      replay := replay.(status := InFlight);
      r := Ok(TransportAttempt(replay.request, authorization));
    }

    method DecideTransportFate(correlation: Correlation) returns (r: Result<(), ReplayRefusal>)
      modifies this
      ensures Decided(TransportFateDecided(old(View()), correlation), r, View())
    {
      if View().OperationLossPending() {
        return Err(LostAuthorityPending);
      }
      if !DetachAuthorityMatches(View(), correlation) {
        return Err(InvalidStatus);
      }
      replay := replay.(status := Parked);
      expected := Some(expected.value.(issued := false));
      r := Ok(());
    }

    method ApplyAttachToReplay(attach: AttachBound, correlation: Correlation) returns (r: Result<(), ReplayRefusal>)
      modifies this
      ensures Decided(ApplyAttach(old(View()), attach, correlation), r, View())
    {
      if View().OperationLossPending() {
        return Err(LostAuthorityPending);
      }
      if !DetachAuthorityMatches(View(), correlation) {
        return Err(ForeignInput);
      }
      var applied := SupersedeReplayByAttach(attach);
      if !applied {
        return Err(ForeignInput);
      }
      expected := None;
      r := Ok(());
    }

    method ApplyLeaveToReplay(leave: LeaveCommitted, correlation: Correlation) returns (r: Result<(), ReplayRefusal>)
      modifies this
      ensures Decided(ApplyLeaveDurable(old(View()), leave, correlation), r, View())
    {
      if View().OperationLossPending() {
        return Err(LostAuthorityPending);
      }
      if !DetachAuthorityMatches(View(), correlation) {
        return Err(ForeignInput);
      }
      var applied := SupersedeReplayByLeave(leave);
      if !applied {
        return Err(ForeignInput);
      }
      expected := None;
      r := Ok(());
    }

    method ApplyOutcomeToReplay(outcome: DetachOutcome, correlation: Correlation) returns (r: Result<(), ReplayRefusal>)
      modifies this
      ensures Decided(ApplyDetachOutcome(old(View()), outcome, correlation), r, View())
    {
      if View().OperationLossPending() {
        return Err(LostAuthorityPending);
      }
      if !DetachAuthorityMatches(View(), correlation) {
        return Err(InvalidStatus);
      }
      var applied := TerminalizeReplay(outcome);
      if !applied {
        return Err(ForeignInput);
      }
      expected := None;
      r := Ok(());
    }

    // Inbound values.

    method ApplyAttachReceiptInPlace(value: AttachBound, live: bool)
      modifies this`binding, this`replay
      ensures View() == ApplyAttachReceipt(old(View()), value, live)
    {
      var request := value.request;
      if live {
        binding := Bound(request.conversation, request.participant, value.epoch.generation, value.secret, value.epoch);
      } else {
        binding := Detached(request.conversation, request.participant, value.epoch.generation, value.secret);
      }
      var _ := SupersedeReplayByAttach(value);
    }

    method ApplyDetachCommitted(d: DetachCommitted)
      modifies this`binding, this`replay
      ensures View() == ApplyCorrelatedValue(old(View()), DetachCommittedValue(d))
    {
      if !binding.Bound? && !binding.Detached? {
        return;
      }
      binding := Detached(d.conversation, d.participant, d.epoch.generation, binding.secret);
      var _ := TerminalizeReplay(CommittedOutcome(d));
    }

    method ApplyRetired(retired: Retired)
      modifies this`binding, this`replay
      ensures View() == ApplyCorrelatedValue(old(View()), RetiredValue(retired))
    {
      var (conversation, participant, generation) := RetirementOf(retired);
      binding := Left(conversation, participant, generation);
      SupersedeReplayByRetirement(conversation, participant, generation);
    }

    method ApplyValue(value: ServerValue)
      modifies this`binding, this`replay
      ensures View() == ApplyCorrelatedValue(old(View()), value)
    {
      match value
      case EnrollBoundValue(e) =>
        binding := Bound(e.request.conversation, e.participant, e.epoch.generation, e.secret, e.epoch);
      case BoundValue(EnrollmentReceipt(e)) =>
        binding := Bound(e.request.conversation, e.participant, e.epoch.generation, e.secret, e.epoch);
      case AttachBoundValue(v) => ApplyAttachReceiptInPlace(v, true);
      case BoundValue(AttachReceipt(v)) => ApplyAttachReceiptInPlace(v, true);
      case UnboundReceipt(AttachReceipt(v)) => ApplyAttachReceiptInPlace(v, false);
      case DetachCommittedValue(d) => ApplyDetachCommitted(d);
      case DetachInProgressValue(d) => var _ := TerminalizeReplay(InProgressOutcome(d));
      case TerminalizedCellValue(cell) => var _ := TerminalizeReplay(CellOutcome(cell));
      case LeaveCommittedValue(l) =>
        binding := Left(l.request.conversation, l.request.participant, l.request.generation);
        var _ := SupersedeReplayByLeave(l);
      case RetiredValue(retired) => ApplyRetired(retired);
      case _ =>
    }

    /** The slot is cleared, the value applied, and a detach's own replay settled, in that order. */
    method Retire(value: ServerValue)
      modifies this
      ensures View() == RetireExpectedOperation(old(View()), value)
    {
      var retired := expected;
      expected := None;
      ApplyValue(value);
      if retired.Some? && retired.value.request.DetachRequest? {
        SettleReplay(retired.value.request.detach, value);
      }
    }

    method ReceiveInner(value: ServerValue, hasAuthority: bool) returns (r: Result<(), InboundRefusal>)
      modifies this
      ensures match DecideInboundInner(old(View()), value, hasAuthority)
        case InboundApplied(a) => View() == a && r.Ok?
        case InboundRefused(a, reason) => View() == a && r == Err(reason)
    {
      if binding.Left? {
        return Err(InboundAlreadyDead);
      }
      var ack := ParticipantAckAnswered(value);
      if ack.Some? {
        return if binding.MatchesAck(ack.value) then Ok(()) else Err(ForeignResponse);
      }
      if value.ParticipantTransportRejected? {
        return Ok(());
      }
      if expected.None? {
        return Err(DelayedResponse);
      }
      if expected.value.lost.Some? {
        return Err(InboundLossPending);
      }
      if !hasAuthority {
        return Err(MissingResponseAuthority);
      }
      if !binding.AcceptsRequest(expected.value.request) {
        return Err(ForeignResponse);
      }
      if !MatchesRequest(value, expected.value.request) {
        return Err(MismatchReason(value, expected.value.request));
      }
      Retire(value);
      r := Ok(());
    }

    /** The unsealed door. */
    method Receive(value: ServerValue) returns (r: Result<(), InboundRefusal>)
      modifies this
      ensures match DecideInbound(old(View()), value)
        case InboundApplied(a) => View() == a && r.Ok?
        case InboundRefused(a, reason) => View() == a && r == Err(reason)
    {
      r := ReceiveInner(value, false);
    }

    /** The sealed door. */
    method ReceiveCorrelated(value: ServerValue, correlation: Correlation) returns (r: Result<(), InboundRefusal>)
      modifies this
      ensures match DecideCorrelatedInbound(old(View()), value, correlation)
        case InboundApplied(a) => View() == a && r.Ok?
        case InboundRefused(a, reason) => View() == a && r == Err(reason)
    {
      if expected.None? || !expected.value.issued || expected.value.authorization != correlation.authorization {
        return Err(DelayedResponse);
      }
      r := ReceiveInner(value, true);
    }

    // The reconnect machine.

    method SeeFreshEvent(event: FreshEvent) returns (r: Result<Permit, PermitRefusal>)
      modifies this
      ensures match RecordFreshEvent(old(View()), event)
        case Permitted(a, permit) => View() == a && r == Ok(permit)
        case PermitRefused(a, _, reason) => View() == a && r == Err(reason)
    {
      if !reconnect.state.ReconnectParked? && !reconnect.state.Online? {
        return Err(AuthorizationOutstanding);
      }
      if reconnect.nextAuthorization == U64_MAX {
        return Err(PermitRefusal.AuthorizationExhausted);
      }
      var authorization := reconnect.nextAuthorization + 1;
      reconnect := reconnect.(nextAuthorization := authorization);
      reconnect := reconnect.(state := PermitOutstanding(authorization, event, true));
      r := Ok(Permit(authorization, event));
    }

    method RecoverPermit() returns (r: Option<Permit>)
      modifies this
      ensures match RecoverReconnectPermit(old(View()))
        case PermitRecovered(a, permit) => View() == a && r == Some(permit)
        case PermitNotAvailable(a) => View() == a && r == None
    {
      match reconnect.state
      case PermitOutstanding(authorization, event, false) =>
        reconnect := reconnect.(state := PermitOutstanding(authorization, event, true));
        r := Some(Permit(authorization, event));
      case _ => r := None;
    }

    method Redeem(permit: Permit) returns (r: Result<Attempt, RedeemRefusal>)
      modifies this
      ensures match RedeemAttempt(old(View()), permit)
        case AttemptBegun(a, attempt) => View() == a && r == Ok(attempt)
        case RedeemRefused(a, _, reason) => View() == a && r == Err(reason)
    {
      if reconnect.lost.Some? {
        return Err(PermitLossPending);
      }
      match reconnect.state
      case PermitOutstanding(authorization, event, _) =>
        if authorization != permit.authorization || event != permit.event {
          return Err(StalePermit);
        }
        reconnect := reconnect.(state := AttemptInProgress(authorization, event));
        r := Ok(Attempt(authorization, event));
      case _ => r := Err(NoPermit);
    }

    method RecordConnectionFate(attempt: Attempt, fate: AttemptFate) returns (r: Result<(), AttemptFateRefusal>)
      modifies this
      ensures match RecordAttemptFate(old(View()), attempt, fate)
        case AttemptFateRecorded(a) => View() == a && r.Ok?
        case AttemptFateRefused(a, _, reason) => View() == a && r == Err(reason)
    {
      if reconnect.lost.Some? {
        return Err(AttemptLossPending);
      }
      match reconnect.state
      case AttemptInProgress(authorization, event) =>
        if authorization != attempt.authorization || event != attempt.event {
          return Err(StaleAttempt);
        }
        reconnect := reconnect.(state := match fate case Connected => Online case Failed => ReconnectParked);
        r := Ok(());
      case _ => r := Err(NoAttempt);
    }

    method ResolveReconnectLoss() returns (testimony: Option<LostAuthorityKind>)
      modifies this
      ensures match ResolveLostReconnectAuthority(old(View()))
        case ReconnectLossRecorded(a, lost) => View() == a && testimony == Some(lost)
        case NoReconnectTestimony(a) => View() == a && testimony == None
    {
      testimony := reconnect.lost;
      reconnect := reconnect.(lost := None);
      if testimony.Some? {
        reconnect := reconnect.(state := ReconnectParked);
      }
    }

    // Persistence.

    /** The record of a coupled aggregate, through the buffer-pushing encoder. */
    method Persist(codec: FrameCodec) returns (r: Result<seq<Byte>, EncodeError>)
      ensures r == ResumeRecord(codec, View())
    {
      if !LiveReplayCoupled(View()) {
        return Err(DecoupledDetachReplay);
      }
      r := ResumeWriter.EncodeRecord(codec, View());
    }

    /** Overwrites this object with the validated restore of decoded facts. */
    method RestoreFrom(facts: Aggregate) returns (error: Option<RestoreError>)
      modifies this
      ensures match RestoreFacts(facts)
        case Ok(a) => View() == a && error == None
        case Err(e) => View() == old(View()) && error == Some(e)
    {
      error := ValidateFacts(facts);
      if error.Some? {
        return;
      }
      binding, nextOperationAuthorization, replay := facts.binding, facts.nextOperationAuthorization, facts.replay;
      expected, reconnect, abandonment := facts.expected, facts.reconnect, facts.abandonment;
      if expected.Some? && Tokenless(expected.value.request) {
        abandonment := Some(Abandonment(expected.value.request, TokenlessAfterCrash, expected.value.issued));
        expected := None;
      }
      if expected.Some? && expected.value.issued && expected.value.lost.None? {
        expected := Some(expected.value.(lost := Some(OperationLossKind(expected.value.request))));
      }
      if reconnect.lost.None? {
        reconnect := reconnect.(lost := ReconnectLossKind(reconnect.state));
      }
    }

    /** Process loss and restart from a record's bytes. */
    method Restart(codec: FrameCodec, bytes: seq<Byte>) returns (failure: Option<RestoreFailure>)
      modifies this
      ensures match Restore(codec, bytes)
        case Ok(a) => View() == a && failure == None
        case Err(e) => View() == old(View()) && failure == Some(e)
    {
      var facts := ResumeReader.DecodeRecord(codec, bytes);
      if facts.Err? {
        return Some(CorruptRecord(facts.error));
      }
      var error := RestoreFrom(facts.value);
      failure := if error.Some? then Some(InvariantBroken(error.value)) else None;
    }
  }

  /** Persisting a sound client and restarting it from the bytes is exactly a crash. */
  method PersistAndRestart(client: Client, codec: FrameCodec) returns (r: Result<(), EncodeError>)
    requires RoundTrips(codec) && Sound(client.View())
    modifies client
    ensures r.Ok? ==> client.View() == Crashed(old(client.View())) && Sound(client.View())
    ensures r.Err? ==> client.View() == old(client.View()) && r != Err(DecoupledDetachReplay)
  {
    SoundRecordRestores(codec, client.View());
    CrashKeepsSound(client.View());
    var bytes :- client.Persist(codec);
    var _ := client.Restart(codec, bytes);
    r := Ok(());
  }

  /** A replay transition's result and new state agree with the transition function. */
  ghost predicate Decided(d: ReplayDecision, r: Result<(), ReplayRefusal>, after: Aggregate) {
    match d
    case ReplayApplied(a) => after == a && r.Ok?
    case ReplayRefused(a, reason) => after == a && r == Err(reason)
  }
}
