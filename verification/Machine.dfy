/**
 Whole runs of the client: the root aggregate (or the sealed record or commit holding it),
 every one-use handle the program holds, and the books kept beside them. An event whose
 one-use value is not held is unrepresentable in the source and here does nothing.
 */
module Machine {
  import opened Outcomes
  import opened Wire
  import opened Participant
  import opened Replays
  import opened Barrier
  import opened Inbound
  import opened Reconnects
  import opened ResumeCodec

  datatype Root =
    | Idle(aggregate: Aggregate)
    | Pending(pending: PendingRecord)
    | Committed(aggregate: Aggregate, operation: Operation)
    | Unrestorable(failure: RestoreFailure)
  {
    /** The aggregate as it stands, sealed or not. */
    function Current(): Aggregate
      requires !Unrestorable?
    {
      if Pending? then pending.successor else aggregate
    }

    /** The aggregate a record would hold: a pending operation has no durable form. */
    function Durable(): Aggregate
      requires !Unrestorable?
    {
      if Pending? then AbortRecord(pending) else aggregate
    }
  }

  datatype OperationHandle =
    | HeldOperation(operation: Operation)
    | HeldAttempt(attempt: TransportAttempt)
    | HeldCorrelation(correlation: Correlation)
  {
    function Authorization(): U64 {
      match this
      case HeldOperation(o) => o.authorization
      case HeldAttempt(t) => t.authorization
      case HeldCorrelation(c) => c.authorization
    }
  }

  datatype ReconnectHandle = HeldPermit(permit: Permit) | HeldReconnectAttempt(inProgress: Attempt)

  /**
   `stranded` records that the last issued authority's handle was dropped with its slot still
   issued: by the program, or by the sealed door applying a value that bypasses the slot.
   */
  datatype Ledger = Ledger(issued: nat, consumed: nat, stranded: bool)

  datatype World = World(
    root: Root,
    operations: multiset<OperationHandle>,
    acknowledgements: multiset<OperationHandle>,
    reconnects: multiset<ReconnectHandle>,
    sends: Ledger,
    connections: Ledger,
    committed: seq<ClientRequest>)

  const START: World :=
    World(Idle(FRESH), multiset{}, multiset{}, multiset{}, Ledger(0, 0, false), Ledger(0, 0, false), [])

  /** Events on an unsealed root that present no handle. */
  datatype SlotEvent =
    | Record(request: ClientRequest)
    | Recover
    | StartReplay
    | Receive(value: ServerValue)
    | ResolveOperationLoss
    | TakeAbandoned

  /** Events that move a sealed record, in the one order the types allow. */
  datatype SealEvent = Abort | Commit | Release

  /** Events that present a one-use correlation. */
  datatype SpendEvent =
    | FateOfDetach(correlation: Correlation)
    | AttachOverReplay(attach: AttachBound, correlation: Correlation)
    | LeaveOverReplay(leave: LeaveCommitted, correlation: Correlation)
    | OutcomeOfReplay(outcome: DetachOutcome, correlation: Correlation)
    | FateOfOperation(correlation: Correlation)
    | ReceiveCorrelated(value: ServerValue, correlation: Correlation)

  datatype ReconnectEvent =
    | FreshEventSeen(event: FreshEvent)
    | RecoverPermit
    | Redeem(permit: Permit)
    | FateOfAttempt(inProgress: Attempt, fate: AttemptFate)
    | ResolveReconnectLoss

  /** Events that move a handle and never touch the root. */
  datatype HandleEvent =
    | Send(handle: OperationHandle)
    | DropOperation(handle: OperationHandle)
    | DropReconnect(reconnectHandle: ReconnectHandle)

  datatype Event =
    | OnSlot(slotEvent: SlotEvent)
    | OnSeal(sealEvent: SealEvent)
    | Spend(spendEvent: SpendEvent)
    | OnReconnect(reconnectEvent: ReconnectEvent)
    | OnHandle(handleEvent: HandleEvent)
    | Crash

  // Handles and books.

  predicate Holds(w: World, correlation: Correlation) {
    HeldCorrelation(correlation) in w.operations || HeldCorrelation(correlation) in w.acknowledgements
  }

  /** Moves a handle out of the bag that holds it. */
  function Without(w: World, h: OperationHandle): World {
    if h in w.operations then w.(operations := w.operations - multiset{h})
    else w.(acknowledgements := w.acknowledgements - multiset{h})
  }

  function Issue(w: World, a: Aggregate, h: OperationHandle): World {
    w.(root := Idle(a), operations := w.operations + multiset{h}, sends := w.sends.(issued := w.sends.issued + 1))
  }

  function Consume(w: World, a: Aggregate): World {
    w.(root := Idle(a), sends := w.sends.(consumed := w.sends.consumed + 1))
  }

  /** Consumes a held correlation along with the authority it stands for. */
  function ConsumeHeld(w: World, a: Aggregate, correlation: Correlation): World {
    Consume(Without(w, HeldCorrelation(correlation)), a)
  }

  // Steps.

  function StepRecord(w: World, request: ClientRequest): World
    requires w.root.Idle?
  {
    match RecordOperation(w.root.aggregate, request)
    case RecordPending(pending) => w.(root := Pending(pending))
    case RecordContinuous(a, operation) =>
      w.(root := Idle(a), acknowledgements := w.acknowledgements + multiset{HeldOperation(operation)})
    case RecordRefused(a, _, _) => w.(root := Idle(a))
  }

  function StepCommit(w: World): World
    requires w.root.Pending?
  {
    var p := w.root.pending;
    w.(root := Committed(p.successor, p.operation), committed := w.committed + [p.operation.request])
  }

  function StepRelease(w: World): World
    requires w.root.Committed?
  {
    Issue(w, ReleaseCommitted(w.root.aggregate, w.root.operation), HeldOperation(w.root.operation))
  }

  function StepSend(w: World, h: OperationHandle): World {
    var sent := HeldCorrelation(Correlation(h.Authorization()));
    if h.HeldCorrelation? then w
    else if h in w.operations then w.(operations := w.operations - multiset{h} + multiset{sent})
    else if h in w.acknowledgements then w.(acknowledgements := w.acknowledgements - multiset{h} + multiset{sent})
    else w
  }

  function StepRecover(w: World): World
    requires w.root.Idle?
  {
    match RecoverExpectedOperation(w.root.aggregate)
    case Recovered(a, operation) => Issue(w, a, HeldOperation(operation))
    case RecoveryNotAvailable(a, _) => w.(root := Idle(a))
  }

  function StepStartReplay(w: World): World
    requires w.root.Idle?
  {
    match TransportAttemptStarted(w.root.aggregate)
    case AttemptStarted(a, attempt) => Issue(w, a, HeldAttempt(attempt))
    case AttemptRefused(a, _) => w.(root := Idle(a))
  }

  /** The replay transitions that spend a correlation. */
  function ReplayDecided(a: Aggregate, e: SpendEvent): (d: ReplayDecision)
    requires SpendsOnReplay(e)
  {
    match e
    case FateOfDetach(c) => TransportFateDecided(a, c)
    case AttachOverReplay(attach, c) => ApplyAttach(a, attach, c)
    case LeaveOverReplay(leave, c) => ApplyLeaveDurable(a, leave, c)
    case OutcomeOfReplay(outcome, c) => ApplyDetachOutcome(a, outcome, c)
  }

  function StepReplayDecision(w: World, d: ReplayDecision, correlation: Correlation): World {
    match d
    case ReplayApplied(a) => ConsumeHeld(w, a, correlation)
    case ReplayRefused(a, _) => w.(root := Idle(a))
  }

  function StepFate(w: World, correlation: Correlation): World
    requires w.root.Idle?
  {
    match RecordExpectedOperationFate(w.root.aggregate, correlation)
    case FateRecorded(a, _) => ConsumeHeld(w, a, correlation)
    case FateRefused(a, _, _) => w.(root := Idle(a))
  }

  /** The sealed door takes the correlation by value; only a retired slot counts as consumption. */
  function StepCorrelated(w: World, value: ServerValue, correlation: Correlation): World
    requires w.root.Idle?
  {
    match DecideCorrelatedInbound(w.root.aggregate, value, correlation)
    case InboundApplied(a) =>
      if a.expected.None? then ConsumeHeld(w, a, correlation)
      else Without(w, HeldCorrelation(correlation)).(root := Idle(a), sends := w.sends.(stranded := true))
    case InboundRefused(a, _) => w.(root := Idle(a))
  }

  function StepResolveOperation(w: World): World
    requires w.root.Idle?
  {
    match ResolveLostOperationAuthority(w.root.aggregate)
    case LossRecorded(a, _, _) => Consume(w, a)
    case LossParked(a, _, _) => Consume(w, a)
    case NoPendingTestimony(a) => w.(root := Idle(a))
  }

  function StepTakeAbandoned(w: World): World
    requires w.root.Idle?
  {
    var (a, taken) := TakeAbandonment(w.root.aggregate);
    if taken.Some? && taken.value.wasIssued then Consume(w, a) else w.(root := Idle(a))
  }

  function StepFreshEvent(w: World, event: FreshEvent): World
    requires w.root.Idle?
  {
    match RecordFreshEvent(w.root.aggregate, event)
    case Permitted(a, permit) =>
      w.(root := Idle(a), reconnects := w.reconnects + multiset{HeldPermit(permit)},
         connections := w.connections.(issued := w.connections.issued + 1))
    case PermitRefused(a, _, _) => w.(root := Idle(a))
  }

  function StepRecoverPermit(w: World): World
    requires w.root.Idle?
  {
    match RecoverReconnectPermit(w.root.aggregate)
    case PermitRecovered(a, permit) =>
      w.(root := Idle(a), reconnects := w.reconnects + multiset{HeldPermit(permit)},
         connections := w.connections.(issued := w.connections.issued + 1))
    case PermitNotAvailable(a) => w.(root := Idle(a))
  }

  function StepRedeem(w: World, permit: Permit): World
    requires w.root.Idle?
  {
    match RedeemAttempt(w.root.aggregate, permit)
    case AttemptBegun(a, attempt) =>
      w.(root := Idle(a),
         reconnects := w.reconnects - multiset{HeldPermit(permit)} + multiset{HeldReconnectAttempt(attempt)})
    case RedeemRefused(a, _, _) => w.(root := Idle(a))
  }

  function StepAttemptFate(w: World, attempt: Attempt, fate: AttemptFate): World
    requires w.root.Idle?
  {
    match RecordAttemptFate(w.root.aggregate, attempt, fate)
    case AttemptFateRecorded(a) =>
      w.(root := Idle(a), reconnects := w.reconnects - multiset{HeldReconnectAttempt(attempt)},
         connections := w.connections.(consumed := w.connections.consumed + 1))
    case AttemptFateRefused(a, _, _) => w.(root := Idle(a))
  }

  function StepResolveReconnect(w: World): World
    requires w.root.Idle?
  {
    match ResolveLostReconnectAuthority(w.root.aggregate)
    case ReconnectLossRecorded(a, _) =>
      w.(root := Idle(a), connections := w.connections.(consumed := w.connections.consumed + 1))
    case NoReconnectTestimony(a) => w.(root := Idle(a))
  }

  function StepDropOperation(w: World, h: OperationHandle): World {
    if h in w.operations then Without(w, h).(sends := w.sends.(stranded := true))
    else Without(w, h)
  }

  function StepDropReconnect(w: World, h: ReconnectHandle): World {
    if h in w.reconnects then
      w.(reconnects := w.reconnects - multiset{h}, connections := w.connections.(stranded := true))
    else w
  }

  /** What storage gives back for an aggregate after process loss. */
  datatype Reload = NotPersisted | Restored(aggregate: Aggregate) | Unreadable(failure: RestoreFailure)
  type Storage = Aggregate -> Reload

  /** Storage that keeps canonical resume records: encode, then decode and restore. */
  function RecordStorage(codec: FrameCodec): Storage {
    (a: Aggregate) =>
      match ResumeRecord(codec, a)
      case Err(_) => NotPersisted
      case Ok(bytes) =>
        match Restore(codec, bytes)
        case Ok(restored) => Restored(restored)
        case Err(failure) => Unreadable(failure)
  }

  /** Process loss: every handle dies, and the client restarts from what storage gives back. */
  function StepCrash(storage: Storage, w: World): World
    requires !w.root.Unrestorable?
  {
    match storage(w.root.Durable())
    case NotPersisted => w
    case Restored(a) => Restarted(w, Idle(a))
    case Unreadable(failure) => Restarted(w, Unrestorable(failure))
  }

  function Restarted(w: World, root: Root): World {
    World(root, multiset{}, multiset{}, multiset{},
          w.sends.(stranded := false), w.connections.(stranded := false), w.committed)
  }

  // Dispatch.

  predicate SpendsOnReplay(e: SpendEvent) {
    !e.FateOfOperation? && !e.ReceiveCorrelated?
  }

  function StepSpend(w: World, e: SpendEvent): World
    requires w.root.Idle?
  {
    if !Holds(w, e.correlation) then w
    else if SpendsOnReplay(e) then StepReplayDecision(w, ReplayDecided(w.root.aggregate, e), e.correlation)
    else if e.FateOfOperation? then StepFate(w, e.correlation)
    else StepCorrelated(w, e.value, e.correlation)
  }

  function StepSlot(w: World, e: SlotEvent): World
    requires w.root.Idle?
  {
    match e
    case Record(request) => StepRecord(w, request)
    case Recover => StepRecover(w)
    case StartReplay => StepStartReplay(w)
    case Receive(value) => w.(root := Idle(DecideInbound(w.root.aggregate, value).aggregate))
    case ResolveOperationLoss => StepResolveOperation(w)
    case TakeAbandoned => StepTakeAbandoned(w)
  }

  function StepReconnect(w: World, e: ReconnectEvent): World
    requires w.root.Idle?
  {
    match e
    case FreshEventSeen(event) => StepFreshEvent(w, event)
    case RecoverPermit => StepRecoverPermit(w)
    case Redeem(permit) => if HeldPermit(permit) in w.reconnects then StepRedeem(w, permit) else w
    case FateOfAttempt(attempt, fate) =>
      if HeldReconnectAttempt(attempt) in w.reconnects then StepAttemptFate(w, attempt, fate) else w
    case ResolveReconnectLoss => StepResolveReconnect(w)
  }

  function StepSealed(w: World, e: SealEvent): World {
    match e
    case Abort => if w.root.Pending? then w.(root := Idle(AbortRecord(w.root.pending))) else w
    case Commit => if w.root.Pending? then StepCommit(w) else w
    case Release => if w.root.Committed? then StepRelease(w) else w
  }

  function StepHandle(w: World, e: HandleEvent): World {
    match e
    case Send(h) => StepSend(w, h)
    case DropOperation(h) => StepDropOperation(w, h)
    case DropReconnect(h) => StepDropReconnect(w, h)
  }

  function Step(storage: Storage, w: World, e: Event): World {
    match e
    case OnSlot(event) => if w.root.Idle? then StepSlot(w, event) else w
    case OnSeal(event) => StepSealed(w, event)
    case Spend(event) => if w.root.Idle? then StepSpend(w, event) else w
    case OnReconnect(event) => if w.root.Idle? then StepReconnect(w, event) else w
    case OnHandle(event) => StepHandle(w, event)
    case Crash => if w.root.Unrestorable? then w else StepCrash(storage, w)
  }

  function Resumed(storage: Storage, w: World, events: seq<Event>): World
    decreases |events|
  {
    if |events| == 0 then w
    else Step(storage, Resumed(storage, w, events[..|events| - 1]), events[|events| - 1])
  }

  /** The world a run from the fresh aggregate reaches. */
  function Run(storage: Storage, events: seq<Event>): World {
    Resumed(storage, START, events)
  }
}
