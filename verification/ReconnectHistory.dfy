/** How the reconnect machine gets online over whole runs. */
module ReconnectHistory {
  import opened Wire
  import opened Participant
  import opened Reconnects
  import opened Resume
  import opened Soundness
  import opened Machine
  import opened MachineInvariant

  function ReconnectOf(w: World): Reconnect
    requires !w.root.Unrestorable?
  {
    w.root.Current().reconnect
  }

  predicate IsOnline(w: World) {
    !w.root.Unrestorable? && ReconnectOf(w).state.Online?
  }

  /** The step records that a connection attempt the program holds has connected. */
  predicate Connects(w: World, e: Event) {
    w.root.Idle? && e.OnReconnect? && e.reconnectEvent.FateOfAttempt? && e.reconnectEvent.fate.Connected? &&
    HeldReconnectAttempt(e.reconnectEvent.inProgress) in w.reconnects
  }

  /** The reconnect state stands, though its losses may be testified. */
  predicate StateKept(before: World, after: World) {
    !before.root.Unrestorable? && !after.root.Unrestorable? && ReconnectOf(after).state == ReconnectOf(before).state
  }

  lemma SpendKeepsState(w: World, e: SpendEvent)
    requires Inv(w) && w.root.Idle?
    ensures StateKept(w, StepSpend(w, e))
  {
    if e.ReceiveCorrelated? {
      CorrelatedKeepsState(w, e);
    } else if SpendsOnReplay(e) {
      ReplayKeepsState(w.root.aggregate, e);
    }
  }

  lemma CorrelatedKeepsState(w: World, e: SpendEvent)
    requires Inv(w) && w.root.Idle? && e.ReceiveCorrelated?
    ensures StateKept(w, StepSpend(w, e))
  {
    SealedDoorRetires(w.root.aggregate, e.value, e.correlation);
    RetireTouchesOnlyItsOwn(w.root.aggregate, e.value);
  }

  lemma ReplayKeepsState(a: Aggregate, e: SpendEvent)
    requires SpendsOnReplay(e)
    ensures ReplayDecided(a, e).aggregate.reconnect == a.reconnect
  {
  }

  lemma SlotKeepsState(w: World, e: SlotEvent)
    requires w.root.Idle?
    ensures StateKept(w, StepSlot(w, e))
  {
    if e.Receive? { UnsealedDoorIsInert(w.root.aggregate, e.value); }
  }

  lemma SealKeepsState(w: World, e: SealEvent)
    requires !w.root.Unrestorable?
    ensures StateKept(w, StepSealed(w, e))
  {
  }

  lemma HandleKeepsState(w: World, e: HandleEvent)
    requires !w.root.Unrestorable?
    ensures StateKept(w, StepHandle(w, e))
  {
  }

  lemma CrashKeepsState(storage: Storage, w: World)
    requires Faithful(storage) && Inv(w)
    ensures StateKept(w, StepCrash(storage, w))
  {
    DurableBalances(w);
  }

  lemma OtherStepsKeepState(storage: Storage, w: World, e: Event)
    requires Faithful(storage) && Inv(w) && !(e.OnReconnect? && w.root.Idle?)
    ensures StateKept(w, Step(storage, w, e))
  {
    match e
    case OnSlot(event) => if w.root.Idle? { SlotKeepsState(w, event); }
    case OnSeal(event) => SealKeepsState(w, event);
    case Spend(event) => if w.root.Idle? { SpendKeepsState(w, event); }
    case OnReconnect(_) =>
    case OnHandle(event) => HandleKeepsState(w, event);
    case Crash => CrashKeepsState(storage, w);
  }

  /** The step arms a new permit, whatever the machine was doing before. */
  predicate Rearms(w: World, e: Event) {
    w.root.Idle? && e.OnReconnect? && e.reconnectEvent.FreshEventSeen? &&
    w.root.aggregate.reconnect.nextAuthorization < U64_MAX
  }

  lemma FreshEventLeavesOnline(w: World, event: FreshEvent)
    requires w.root.Idle?
    ensures IsOnline(StepFreshEvent(w, event)) <==>
      IsOnline(w) && w.root.aggregate.reconnect.nextAuthorization == U64_MAX
  {
  }

  lemma RedeemIsOffline(w: World, permit: Permit)
    requires w.root.Idle? && IsCurrentReconnect(w.root.aggregate.reconnect, HeldPermit(permit))
    ensures !IsOnline(w) && !IsOnline(StepRedeem(w, permit))
  {
  }

  lemma FateDecidesOnline(w: World, attempt: Attempt, fate: AttemptFate)
    requires w.root.Idle? && IsCurrentReconnect(w.root.aggregate.reconnect, HeldReconnectAttempt(attempt))
    ensures !IsOnline(w) && (IsOnline(StepAttemptFate(w, attempt, fate)) <==> fate.Connected?)
  {
  }

  lemma ResolutionIsOffline(w: World)
    requires w.root.Idle? && SoundReconnect(w.root.aggregate.reconnect)
    ensures IsOnline(StepResolveReconnect(w)) <==> IsOnline(w)
  {
  }

  /** Of the reconnect events only a connected fate goes online, and only a new permit leaves. */
  lemma ReconnectGoesOnlineExactly(w: World, e: ReconnectEvent)
    requires Inv(w) && w.root.Idle?
    ensures IsOnline(StepReconnect(w, e)) <==>
      Connects(w, OnReconnect(e)) || (IsOnline(w) && !Rearms(w, OnReconnect(e)))
  {
    var r := w.root.aggregate.reconnect;
    match e
    case FreshEventSeen(event) => FreshEventLeavesOnline(w, event);
    case RecoverPermit => NoPermitToRecover(w);
    case Redeem(permit) =>
      if HeldPermit(permit) in w.reconnects {
        assert IsCurrentReconnect(r, HeldPermit(permit));
        RedeemIsOffline(w, permit);
      }
    case FateOfAttempt(attempt, fate) =>
      if HeldReconnectAttempt(attempt) in w.reconnects {
        assert IsCurrentReconnect(r, HeldReconnectAttempt(attempt));
        FateDecidesOnline(w, attempt, fate);
      }
    case ResolveReconnectLoss => ResolutionIsOffline(w);
  }

  lemma StepGoesOnlineExactly(storage: Storage, w: World, e: Event)
    requires Faithful(storage) && Inv(w)
    ensures IsOnline(Step(storage, w, e)) <==> Connects(w, e) || (IsOnline(w) && !Rearms(w, e))
  {
    if e.OnReconnect? && w.root.Idle? {
      ReconnectGoesOnlineExactly(w, e.reconnectEvent);
    } else {
      OtherStepsKeepState(storage, w, e);
    }
  }

  /** Some step of the run connected, and no permit has been armed since. */
  predicate ConnectedSince(storage: Storage, events: seq<Event>)
    decreases |events|
  {
    |events| > 0 &&
    var before, last := events[..|events| - 1], events[|events| - 1];
    Connects(Run(storage, before), last) ||
    (ConnectedSince(storage, before) && !Rearms(Run(storage, before), last))
  }

  /** A client is online if and only if an attempt it held connected and nothing has rearmed it since. */
  lemma {:induction false} OnlineExactlySinceConnecting(storage: Storage, events: seq<Event>)
    requires Faithful(storage)
    ensures IsOnline(Run(storage, events)) <==> ConnectedSince(storage, events)
    decreases |events|
  {
    if |events| == 0 {
      FreshWorldIsOffline(START);
    } else {
      var before := events[..|events| - 1];
      OnlineExactlySinceConnecting(storage, before);
      RunKeepsInv(storage, before);
      StepGoesOnlineExactly(storage, Run(storage, before), events[|events| - 1]);
    }
  }

  lemma FreshWorldIsOffline(w: World)
    requires FreshWorld(w)
    ensures !IsOnline(w)
  {
  }
}
