/** The detach replay lifecycle and its authority-consuming transitions. */
module Replays {
  import opened Outcomes
  import opened Wire
  import opened Participant

  // Transitions of the replay itself.

  function MarkInitialAttemptStarted(replay: DetachReplay): (after: DetachReplay) {
    if replay.RecordedReplay? && replay.status.Parked? then replay.(status := InFlight) else replay
  }

  predicate CanReplaceWith(replay: DetachReplay, request: DetachEnvelope) {
    replay.RecordedReplay? &&
    replay.request.conversation == request.conversation &&
    replay.request.participant == request.participant &&
    request.generation > replay.request.generation &&
    (replay.status.Superseded? || replay.status.Terminal?)
  }

  predicate SupersededBy(replay: DetachReplay, attach: AttachBound) {
    replay.RecordedReplay? &&
    attach.request.conversation == replay.request.conversation &&
    attach.request.participant == replay.request.participant &&
    attach.epoch.generation > replay.request.generation
  }

  function SupersedeByAttach(replay: DetachReplay, attach: AttachBound): (after: DetachReplay) {
    if SupersededBy(replay, attach) then replay.(status := Superseded) else replay
  }

  predicate LeftBy(replay: DetachReplay, leave: LeaveCommitted) {
    replay.RecordedReplay? &&
    leave.request.conversation == replay.request.conversation &&
    leave.request.participant == replay.request.participant &&
    leave.request.generation == replay.request.generation
  }

  function SupersedeByLeave(replay: DetachReplay, leave: LeaveCommitted): (after: DetachReplay) {
    if LeftBy(replay, leave) then replay.(status := LeaveSuperseded) else replay
  }

  function SupersedeByRetirement(
    replay: DetachReplay, conversation: U64, participant: U64, retired: Generation): (after: DetachReplay)
  {
    if replay.RecordedReplay? && replay.request.conversation == conversation &&
       replay.request.participant == participant && retired >= replay.request.generation
    then replay.(status := LeaveSuperseded)
    else replay
  }

  /** A response that named the retained detach without answering it ends the replay. */
  function SettleRefusedAuthority(
    replay: DetachReplay, expected: DetachEnvelope, value: ServerValue): (after: DetachReplay)
  {
    if replay.IsActive() && replay.request == expected
    then replay.(status := Terminal(RefusedTerminal(value)))
    else replay
  }

  datatype DetachOutcome =
    | CommittedOutcome(committed: DetachCommitted)
    | InProgressOutcome(pending: DetachInProgress)
    | CellOutcome(cell: TerminalizedDetachCell)
  {
    function Request(): DetachEnvelope {
      match this
      case CommittedOutcome(d) => d.Request()
      case InProgressOutcome(d) => d.request
      case CellOutcome(d) => d.request
    }

    function AsTerminal(): ReplayTerminal {
      match this
      case CommittedOutcome(d) => CommittedTerminal(d)
      case InProgressOutcome(d) => InProgressTerminal(d)
      case CellOutcome(d) => CellTerminal(d)
    }
  }

  function TerminalizeWith(replay: DetachReplay, outcome: DetachOutcome): (after: DetachReplay) {
    if replay.RecordedReplay? && outcome.Request() == replay.request
    then replay.(status := Terminal(outcome.AsTerminal()))
    else replay
  }

  // Transitions of the aggregate.

  datatype ReplayRefusal = InvalidStatus | ForeignInput | LostAuthorityPending

  datatype ReplayDecision =
    | ReplayApplied(aggregate: Aggregate)
    | ReplayRefused(aggregate: Aggregate, reason: ReplayRefusal)

  datatype AttemptDecision =
    | AttemptStarted(aggregate: Aggregate, attempt: TransportAttempt)
    | AttemptRefused(aggregate: Aggregate, reason: ReplayRefusal)

  /** The expected slot holds exactly this detach. */
  predicate ExpectsDetach(expected: Option<ExpectedOperation>, request: DetachEnvelope) {
    expected.Some? && expected.value.request == DetachRequest(request)
  }

  function TransportAttemptStarted(a: Aggregate): (d: AttemptDecision)
    ensures d.AttemptRefused? ==> d.aggregate == a
  {
    if a.replay.RecordedReplay? && a.replay.status.Parked? &&
       ExpectsDetach(a.expected, a.replay.request) && a.expected.value.authorization != 0
    then
      AttemptStarted(
        a.(expected := Some(a.expected.value.(issued := true)), replay := a.replay.(status := InFlight)),
        TransportAttempt(a.replay.request, a.expected.value.authorization))
    else
      AttemptRefused(a, InvalidStatus)
  }

  /** The correlation is the live authority of the in-flight detach. */
  predicate DetachAuthorityMatches(a: Aggregate, correlation: Correlation) {
    a.expected.Some? && a.expected.value.issued &&
    a.expected.value.authorization == correlation.authorization &&
    a.replay.RecordedReplay? && a.replay.status.InFlight? &&
    ExpectsDetach(a.expected, a.replay.request)
  }

  function TransportFateDecided(a: Aggregate, correlation: Correlation): (d: ReplayDecision)
    ensures d.ReplayRefused? ==> d.aggregate == a
    ensures d.ReplayApplied? ==> DetachAuthorityMatches(a, correlation)
  {
    if a.OperationLossPending() then ReplayRefused(a, LostAuthorityPending)
    else if DetachAuthorityMatches(a, correlation) then
      ReplayApplied(a.(replay := a.replay.(status := Parked),
                       expected := Some(a.expected.value.(issued := false))))
    else ReplayRefused(a, InvalidStatus)
  }

  function ApplyAttach(a: Aggregate, attach: AttachBound, correlation: Correlation): (d: ReplayDecision)
    ensures d.ReplayRefused? ==> d.aggregate == a
    ensures d.ReplayApplied? ==> DetachAuthorityMatches(a, correlation)
  {
    if a.OperationLossPending() then ReplayRefused(a, LostAuthorityPending)
    else if DetachAuthorityMatches(a, correlation) && SupersededBy(a.replay, attach) then
      ReplayApplied(a.(replay := SupersedeByAttach(a.replay, attach), expected := None))
    else ReplayRefused(a, ForeignInput)
  }

  function ApplyLeaveDurable(a: Aggregate, leave: LeaveCommitted, correlation: Correlation): (d: ReplayDecision)
    ensures d.ReplayRefused? ==> d.aggregate == a
    ensures d.ReplayApplied? ==> DetachAuthorityMatches(a, correlation)
  {
    if a.OperationLossPending() then ReplayRefused(a, LostAuthorityPending)
    else if DetachAuthorityMatches(a, correlation) && LeftBy(a.replay, leave) then
      ReplayApplied(a.(replay := SupersedeByLeave(a.replay, leave), expected := None))
    else ReplayRefused(a, ForeignInput)
  }

  function ApplyDetachOutcome(a: Aggregate, outcome: DetachOutcome, correlation: Correlation): (d: ReplayDecision)
    ensures d.ReplayRefused? ==> d.aggregate == a
    ensures d.ReplayApplied? ==> DetachAuthorityMatches(a, correlation)
  {
    if a.OperationLossPending() then ReplayRefused(a, LostAuthorityPending)
    else if !DetachAuthorityMatches(a, correlation) then ReplayRefused(a, InvalidStatus)
    else if outcome.Request() == a.replay.request then
      ReplayApplied(a.(replay := TerminalizeWith(a.replay, outcome), expected := None))
    else ReplayRefused(a, ForeignInput)
  }
}
