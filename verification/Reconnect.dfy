/** The reconnect permit machine: one fresh event, one permit, one attempt. */
module Reconnects {
  import opened Outcomes
  import opened Wire
  import opened Participant

  datatype Permit = Permit(authorization: U64, event: FreshEvent)
  datatype Attempt = Attempt(authorization: U64, event: FreshEvent)
  datatype AttemptFate = Connected | Failed

  datatype PermitRefusal = AuthorizationOutstanding | AuthorizationExhausted

  datatype PermitDecision =
    | Permitted(aggregate: Aggregate, permit: Permit)
    | PermitRefused(aggregate: Aggregate, event: FreshEvent, reason: PermitRefusal)

  function RecordFreshEvent(a: Aggregate, event: FreshEvent): (d: PermitDecision)
    ensures d.PermitRefused? ==> d.aggregate == a && d.event == event
  {
    if !a.reconnect.state.ReconnectParked? && !a.reconnect.state.Online? then
      PermitRefused(a, event, AuthorizationOutstanding)
    else if a.reconnect.nextAuthorization == U64_MAX then PermitRefused(a, event, AuthorizationExhausted)
    else
      var authorization: U64 := a.reconnect.nextAuthorization + 1;
      Permitted(
        a.(reconnect := a.reconnect.(nextAuthorization := authorization,
                                     state := PermitOutstanding(authorization, event, true))),
        Permit(authorization, event))
  }

  datatype RecoverPermitDecision =
    | PermitRecovered(aggregate: Aggregate, permit: Permit)
    | PermitNotAvailable(aggregate: Aggregate)

  function RecoverReconnectPermit(a: Aggregate): (d: RecoverPermitDecision)
    ensures d.PermitNotAvailable? ==> d.aggregate == a
  {
    match a.reconnect.state
    case PermitOutstanding(authorization, event, false) =>
      PermitRecovered(
        a.(reconnect := a.reconnect.(state := PermitOutstanding(authorization, event, true))),
        Permit(authorization, event))
    case _ => PermitNotAvailable(a)
  }

  datatype ResolveReconnectDecision =
    | ReconnectLossRecorded(aggregate: Aggregate, testimony: LostAuthorityKind)
    | NoReconnectTestimony(aggregate: Aggregate)

  function ResolveLostReconnectAuthority(a: Aggregate): (d: ResolveReconnectDecision)
    ensures d.NoReconnectTestimony? ==> d.aggregate == a
  {
    match a.reconnect.lost
    case Some(testimony) =>
      ReconnectLossRecorded(a.(reconnect := a.reconnect.(lost := None, state := ReconnectParked)), testimony)
    case None => NoReconnectTestimony(a)
  }

  datatype RedeemRefusal = NoPermit | StalePermit | PermitLossPending

  datatype RedeemDecision =
    | AttemptBegun(aggregate: Aggregate, attempt: Attempt)
    | RedeemRefused(aggregate: Aggregate, permit: Permit, reason: RedeemRefusal)

  function RedeemAttempt(a: Aggregate, permit: Permit): (d: RedeemDecision)
    ensures d.RedeemRefused? ==> d.aggregate == a && d.permit == permit
  {
    if a.reconnect.lost.Some? then RedeemRefused(a, permit, PermitLossPending)
    else
      match a.reconnect.state
      case PermitOutstanding(authorization, event, _) =>
        if authorization == permit.authorization && event == permit.event then
          AttemptBegun(
            a.(reconnect := a.reconnect.(state := AttemptInProgress(authorization, event))),
            Attempt(authorization, event))
        else RedeemRefused(a, permit, StalePermit)
      case _ => RedeemRefused(a, permit, NoPermit)
  }

  datatype AttemptFateRefusal = NoAttempt | StaleAttempt | AttemptLossPending

  datatype AttemptFateDecision =
    | AttemptFateRecorded(aggregate: Aggregate)
    | AttemptFateRefused(aggregate: Aggregate, attempt: Attempt, reason: AttemptFateRefusal)

  function RecordAttemptFate(a: Aggregate, attempt: Attempt, fate: AttemptFate): (d: AttemptFateDecision)
    ensures d.AttemptFateRefused? ==> d.aggregate == a && d.attempt == attempt
  {
    if a.reconnect.lost.Some? then AttemptFateRefused(a, attempt, AttemptLossPending)
    else
      match a.reconnect.state
      case AttemptInProgress(authorization, event) =>
        if authorization == attempt.authorization && event == attempt.event then
          AttemptFateRecorded(
            a.(reconnect := a.reconnect.(state := match fate case Connected => Online case Failed => ReconnectParked)))
        else AttemptFateRefused(a, attempt, StaleAttempt)
      case _ => AttemptFateRefused(a, attempt, NoAttempt)
  }
}
