/** Cold restore: the facts a record holds, their validation, and what a crash does to them. */
module Resume {
  import opened Outcomes
  import opened Wire
  import opened Participant
  import opened Correlations

  datatype RestoreError =
    | BindingGenerationMismatch
    | ContinuousAckOutstanding
    | ReplayTerminalMismatch
    | InvalidOperationAuthorization
    | ExpectedBindingMismatch
    | ActiveReplayExpectedDetachMismatch
    | ExpectedDetachActiveReplayMismatch
    | InvalidReconnectAuthorization
    | LostAuthorityTestimonyMismatch
    | PendingAbandonmentConflict

  /** The detach an expected slot holds. */
  function ExpectedDetach(expected: Option<ExpectedOperation>): (d: Option<DetachEnvelope>) {
    if expected.Some? && expected.value.request.DetachRequest? then Some(expected.value.request.detach) else None
  }

  /** Write-side coupling: an active replay and an expected detach exist together and agree. */
  predicate LiveReplayCoupled(a: Aggregate) {
    if a.replay.IsActive() then ExpectedDetach(a.expected) == Some(a.replay.request)
    else ExpectedDetach(a.expected).None?
  }

  /** A terminal payload names the detach the replay retains. */
  predicate TerminalMatches(request: DetachEnvelope, terminal: ReplayTerminal) {
    match terminal
    case CommittedTerminal(d) => d.Request() == request
    case InProgressTerminal(d) => d.request == request
    case CellTerminal(d) => d.request == request
    case RefusedTerminal(value) => MatchesRequest(value, DetachRequest(request))
  }

  function ValidateTestimonyCoupling(f: Aggregate): (e: Option<RestoreError>) {
    if f.expected.Some? && f.expected.value.lost.Some? &&
       (!f.expected.value.issued || Tokenless(f.expected.value.request) ||
        f.expected.value.lost.value != OperationLossKind(f.expected.value.request))
    then Some(LostAuthorityTestimonyMismatch)
    else if f.reconnect.lost.Some? && ReconnectLossKind(f.reconnect.state) != f.reconnect.lost
    then Some(LostAuthorityTestimonyMismatch)
    else if f.abandonment.Some? && f.expected.Some? && Tokenless(f.expected.value.request)
    then Some(PendingAbandonmentConflict)
    else None
  }

  function ReconnectAuthorization(state: ReconnectState): (n: Option<U64>) {
    match state
    case PermitOutstanding(n, _, _) => Some(n)
    case AttemptInProgress(n, _) => Some(n)
    case _ => None
  }

  function ValidateReplay(f: Aggregate): (e: Option<RestoreError>) {
    if f.replay.IsActive() then
      if ExpectedDetach(f.expected) == Some(f.replay.request) && f.replay.status.InFlight? == f.expected.value.issued
      then None
      else Some(ActiveReplayExpectedDetachMismatch)
    else if ExpectedDetach(f.expected).Some? then Some(ExpectedDetachActiveReplayMismatch)
    else if f.replay.RecordedReplay? && f.replay.status.Terminal? &&
            !TerminalMatches(f.replay.request, f.replay.status.terminal)
    then Some(ReplayTerminalMismatch)
    else None
  }

  /** The first cross-fact invariant the decoded facts break. */
  function ValidateFacts(f: Aggregate): (e: Option<RestoreError>) {
    if f.binding.Bound? && f.binding.generation != f.binding.epoch.generation
    then Some(BindingGenerationMismatch)
    else if f.expected.Some? && f.expected.value.request.AckRequest?
    then Some(ContinuousAckOutstanding)
    else if f.expected.Some? &&
            (f.expected.value.authorization == 0 || f.expected.value.authorization > f.nextOperationAuthorization)
    then Some(InvalidOperationAuthorization)
    else if f.expected.Some? && !f.binding.AcceptsRequest(f.expected.value.request)
    then Some(ExpectedBindingMismatch)
    else if ValidateReplay(f).Some? then ValidateReplay(f)
    else if ReconnectAuthorization(f.reconnect.state).Some? &&
            (ReconnectAuthorization(f.reconnect.state).value == 0 ||
             ReconnectAuthorization(f.reconnect.state).value > f.reconnect.nextAuthorization)
    then Some(InvalidReconnectAuthorization)
    else ValidateTestimonyCoupling(f)
  }

  /** Validated restore of decoded facts into executable state. */
  function RestoreFacts(f: Aggregate): (r: Result<Aggregate, RestoreError>) {
    match ValidateFacts(f)
    case Some(error) => Err(error)
    case None =>
      var tokenless := f.expected.Some? && Tokenless(f.expected.value.request);
      var expected := if tokenless then None else f.expected;
      var abandonment :=
        if tokenless then
          Some(Abandonment(f.expected.value.request, TokenlessAfterCrash, f.expected.value.issued))
        else f.abandonment;
      var testified :=
        if expected.Some? && expected.value.issued && expected.value.lost.None? then
          Some(expected.value.(lost := Some(OperationLossKind(expected.value.request))))
        else expected;
      var reconnectLost :=
        if f.reconnect.lost.None? then ReconnectLossKind(f.reconnect.state) else f.reconnect.lost;
      Ok(f.(expected := testified, reconnect := f.reconnect.(lost := reconnectLost), abandonment := abandonment))
  }

  /**
   What a crash does, stated without reference to how records are validated: issued
   operations are testified lost, a tokenless operation becomes an abandonment, an issued
   permit or attempt is testified lost, and everything else survives.
   */
  function Crashed(a: Aggregate): (after: Aggregate) {
    var slot := a.expected;
    Aggregate(
      a.binding,
      if slot.None? || Tokenless(slot.value.request) then None
      else if slot.value.issued then Some(slot.value.(lost := Some(OperationLossKind(slot.value.request))))
      else slot,
      a.nextOperationAuthorization,
      a.replay,
      a.reconnect.(lost := ReconnectLossKind(a.reconnect.state)),
      if slot.Some? && Tokenless(slot.value.request)
      then Some(Abandonment(slot.value.request, TokenlessAfterCrash, slot.value.issued))
      else a.abandonment)
  }

  /** On every record it accepts, restore is exactly the simple crash function. */
  lemma RestoreIsCrash(f: Aggregate)
    requires ValidateFacts(f).None?
    ensures RestoreFacts(f) == Ok(Crashed(f))
  {
  }

  /** What kind of authority each loss testifies, and what a crash surfaces. */
  lemma CrashTestimonyIsOfItsKind(a: Aggregate)
    ensures var after := Crashed(a);
      (after.expected.Some? && after.expected.value.issued ==>
         after.expected.value.lost == Some(
           if a.expected.value.request.DetachRequest? then DetachTransportAttempt
           else IssuedOperationCorrelation)) &&
      (after.reconnect.lost ==
         match a.reconnect.state
         case PermitOutstanding(_, _, issued) => if issued then Some(ReconnectPermit) else None
         case AttemptInProgress(_, _) => Some(ReconnectAttempt)
         case _ => None) &&
      (after.abandonment != a.abandonment ==>
         a.expected.Some? && a.expected.value.request.ObserverRequest? &&
         after.abandonment.Some? && after.abandonment.value.request == a.expected.value.request &&
         after.abandonment.value.wasIssued == a.expected.value.issued)
  {
  }

  /** A second crash changes nothing. */
  lemma CrashIsIdempotent(a: Aggregate)
    ensures Crashed(Crashed(a)) == Crashed(a)
  {
  }
}
