/** The inductive invariant of whole runs. */
module MachineInvariant {
  import opened Outcomes
  import opened Wire
  import opened Participant
  import opened Correlations
  import opened Replays
  import opened Barrier
  import opened Inbound
  import opened Reconnects
  import opened Resume
  import ResumeCodec
  import opened Soundness
  import opened Machine

  function Count(b: bool): nat { if b then 1 else 0 }

  // The root.

  /** A committed but unreleased slot holding exactly the sealed operation. */
  function SealedSlot(operation: Operation): Option<ExpectedOperation> {
    Some(ExpectedOperation(operation.request, false, operation.authorization, None))
  }

  predicate RootSound(root: Root) {
    match root
    case Idle(a) => Sound(a)
    case Pending(p) => Sound(p.successor) && Sound(AbortRecord(p)) && PendingAdvances(p)
    case Committed(a, operation) => Sound(a) && a.expected == SealedSlot(operation)
    case Unrestorable(_) => false
  }

  /** A pending detach replaces only a replay of an older generation. */
  predicate PendingAdvances(p: PendingRecord) {
    var prior, replay := AbortRecord(p).replay, p.successor.replay;
    p.successor.expected == SealedSlot(p.operation) &&
    if p.operation.request.DetachRequest? then
      replay.RecordedReplay? && replay.request == p.operation.request.detach &&
      (prior.RecordedReplay? ==> prior.request.generation < replay.request.generation)
    else replay == prior
  }

  // Send authority.

  type Slot = Option<ExpectedOperation>

  predicate SlotIssued(slot: Slot) {
    slot.Some? && slot.value.issued
  }

  /** The slot's authority is out and nothing testifies it lost. */
  predicate SlotLive(slot: Slot) {
    SlotIssued(slot) && slot.value.lost.None?
  }

  predicate AbandonedIssued(abandonment: Option<Abandonment>) {
    abandonment.Some? && abandonment.value.wasIssued
  }

  /** A handle that names the live slot. */
  predicate IsCurrent(slot: Slot, h: OperationHandle) {
    SlotLive(slot) && h.Authorization() == slot.value.authorization != 0 &&
    (h.HeldOperation? ==> h.operation.request == slot.value.request) &&
    (h.HeldAttempt? ==> slot.value.request == DetachRequest(h.attempt.request))
  }

  /**
   Every held send authority names the live slot, exactly one exists unless it was stranded,
   and the books equal what the slot and the abandonment still owe.
   */
  predicate SendsBalance(
    slot: Slot, abandonment: Option<Abandonment>, held: multiset<OperationHandle>, books: Ledger)
  {
    (forall h :: h in held ==> IsCurrent(slot, h)) &&
    |held| + Count(books.stranded) == Count(SlotLive(slot)) &&
    books.issued == books.consumed + Count(SlotIssued(slot)) + Count(AbandonedIssued(abandonment))
  }

  /** Continuous acknowledgements travel under authorization zero. */
  predicate AcksAreUnnumbered(held: multiset<OperationHandle>) {
    forall h :: h in held ==> h.Authorization() == 0 && !h.HeldAttempt?
  }

  // Reconnect authority.

  predicate IsCurrentReconnect(r: Reconnect, h: ReconnectHandle) {
    r.lost.None? &&
    match h
    case HeldPermit(p) => r.state == PermitOutstanding(p.authorization, p.event, true)
    case HeldReconnectAttempt(t) => r.state == AttemptInProgress(t.authorization, t.event)
  }

  predicate ReconnectLive(r: Reconnect) {
    ReconnectLossKind(r.state).Some? && r.lost.None?
  }

  predicate ConnectionsBalance(r: Reconnect, held: multiset<ReconnectHandle>, books: Ledger) {
    (forall h :: h in held ==> IsCurrentReconnect(r, h)) &&
    |held| + Count(books.stranded) == Count(ReconnectLive(r)) &&
    books.issued == books.consumed + Count(ReconnectLossKind(r.state).Some?)
  }

  // The log of committed requests.

  predicate DetachesAscend(log: seq<ClientRequest>) {
    forall i, j :: 0 <= i < j < |log| && log[i].DetachRequest? && log[j].DetachRequest? ==>
      log[i].detach.generation < log[j].detach.generation
  }

  predicate CoversLog(replay: DetachReplay, log: seq<ClientRequest>) {
    forall i :: 0 <= i < |log| && log[i].DetachRequest? ==>
      replay.RecordedReplay? && log[i].detach.generation <= replay.request.generation
  }

  predicate SlotIsLatest(slot: Slot, log: seq<ClientRequest>) {
    slot.Some? ==> |log| > 0 && log[|log| - 1] == slot.value.request
  }

  predicate LogAgrees(root: Root, log: seq<ClientRequest>)
    requires !root.Unrestorable?
  {
    SlotIsLatest(root.Durable().expected, log) && CoversLog(root.Durable().replay, log) && DetachesAscend(log)
  }

  predicate Inv(w: World) {
    RootSound(w.root) &&
    SendsBalance(w.root.Current().expected, w.root.Current().abandonment, w.operations, w.sends) &&
    AcksAreUnnumbered(w.acknowledgements) &&
    ConnectionsBalance(w.root.Current().reconnect, w.reconnects, w.connections) &&
    LogAgrees(w.root, w.committed)
  }

  // Accounting lemmas.

  lemma OnlyHandle<T>(bag: multiset<T>, h: T)
    requires |bag| <= 1 && h in bag
    ensures bag == multiset{h}
  {
    assert |bag - multiset{h}| == |bag| - 1;
  }

  /** Releasing an unissued slot issues exactly one handle. */
  lemma IssuingBalances(
    slot: Slot, abandonment: Option<Abandonment>, held: multiset<OperationHandle>, books: Ledger,
    h: OperationHandle)
    requires SendsBalance(slot, abandonment, held, books)
    requires slot.Some? && !slot.value.issued && slot.value.lost.None?
    requires IsCurrent(Some(slot.value.(issued := true)), h)
    ensures held == multiset{} && !books.stranded
    ensures SendsBalance(
      Some(slot.value.(issued := true)), abandonment, held + multiset{h}, books.(issued := books.issued + 1))
  {
  }

  /** Spending the one live handle settles one issue. */
  lemma SpendingBalances(
    slot: Slot, after: Slot, abandonment: Option<Abandonment>, held: multiset<OperationHandle>, books: Ledger,
    h: OperationHandle)
    requires SendsBalance(slot, abandonment, held, books) && h in held && !SlotIssued(after)
    ensures SendsBalance(after, abandonment, held - multiset{h}, books.(consumed := books.consumed + 1))
  {
    assert IsCurrent(slot, h);
    OnlyHandle(held, h);
  }

  /** Losing the live handle while its slot stays issued strands it. */
  lemma StrandingBalances(
    slot: Slot, abandonment: Option<Abandonment>, held: multiset<OperationHandle>, books: Ledger,
    h: OperationHandle)
    requires SendsBalance(slot, abandonment, held, books) && h in held
    ensures SendsBalance(slot, abandonment, held - multiset{h}, books.(stranded := true))
  {
    assert IsCurrent(slot, h);
    OnlyHandle(held, h);
  }

  lemma SendingBalances(
    slot: Slot, abandonment: Option<Abandonment>, held: multiset<OperationHandle>, books: Ledger,
    h: OperationHandle)
    requires SendsBalance(slot, abandonment, held, books) && h in held
    ensures var sent := HeldCorrelation(Correlation(h.Authorization()));
      SendsBalance(slot, abandonment, held - multiset{h} + multiset{sent}, books)
  {
    assert IsCurrent(slot, h);
    OnlyHandle(held, h);
  }

  /** A crash turns the live or stranded authority into its own loss atom. */
  lemma CrashBalances(a: Aggregate, held: multiset<OperationHandle>, books: Ledger)
    requires Sound(a) && SendsBalance(a.expected, a.abandonment, held, books)
    ensures SendsBalance(Crashed(a).expected, Crashed(a).abandonment, multiset{}, books.(stranded := false))
  {
  }

  // Barrier events.

  lemma RecordedRootIsSound(a: Aggregate, request: ClientRequest)
    requires Sound(a) && RecordOperation(a, request).RecordPending?
    ensures RootSound(Pending(RecordOperation(a, request).pending))
  {
    RecordKeepsSound(a, request);
  }

  lemma RecordKeepsInv(w: World, request: ClientRequest)
    requires Inv(w) && w.root.Idle?
    ensures Inv(StepRecord(w, request))
  {
    if RecordOperation(w.root.aggregate, request).RecordPending? {
      RecordedRootIsSound(w.root.aggregate, request);
    }
  }

  lemma CommitKeepsLog(p: PendingRecord, log: seq<ClientRequest>)
    requires PendingAdvances(p) && LogAgrees(Pending(p), log)
    ensures LogAgrees(Committed(p.successor, p.operation), log + [p.operation.request])
  {
  }

  lemma CommitKeepsInv(w: World)
    requires Inv(w) && w.root.Pending?
    ensures Inv(StepCommit(w))
  {
    CommitKeepsLog(w.root.pending, w.committed);
  }

  lemma AbortKeepsInv(w: World)
    requires Inv(w) && w.root.Pending?
    ensures Inv(w.(root := Idle(AbortRecord(w.root.pending))))
  {
  }

  lemma IssueKeepsInv(w: World, before: Aggregate, after: Aggregate, h: OperationHandle)
    requires Inv(w) && !w.root.Pending? && before == w.root.Current()
    requires Sound(after) && before.expected.Some? && !before.expected.value.issued
    requires after.expected == Some(before.expected.value.(issued := true))
    requires after == before.(expected := after.expected, replay := after.replay)
    requires after.replay.RecordedReplay? == before.replay.RecordedReplay?
    requires before.replay.RecordedReplay? ==> after.replay.request == before.replay.request
    requires IsCurrent(after.expected, h)
    ensures Inv(Issue(w, after, h))
  {
    IssuingBalances(before.expected, before.abandonment, w.operations, w.sends, h);
  }

  lemma ReleaseKeepsInv(w: World)
    requires Inv(w) && w.root.Committed?
    ensures Inv(StepRelease(w))
  {
    var a, operation := w.root.aggregate, w.root.operation;
    ReleaseKeepsSound(a, operation);
    IssueKeepsInv(w, a, ReleaseCommitted(a, operation), HeldOperation(operation));
  }

  lemma RecoverKeepsInv(w: World)
    requires Inv(w) && w.root.Idle?
    ensures Inv(StepRecover(w))
  {
    var d := RecoverExpectedOperation(w.root.aggregate);
    RecoverKeepsSound(w.root.aggregate);
    if d.Recovered? { IssueKeepsInv(w, w.root.aggregate, d.aggregate, HeldOperation(d.operation)); }
  }

  lemma StartReplayKeepsInv(w: World)
    requires Inv(w) && w.root.Idle?
    ensures Inv(StepStartReplay(w))
  {
    var d := TransportAttemptStarted(w.root.aggregate);
    AttemptKeepsSound(w.root.aggregate);
    if d.AttemptStarted? { IssueKeepsInv(w, w.root.aggregate, d.aggregate, HeldAttempt(d.attempt)); }
  }

  /** Only the send handles move. */
  lemma OperationsKeepInv(w: World, held: multiset<OperationHandle>, books: Ledger)
    requires Inv(w) && SendsBalance(w.root.Current().expected, w.root.Current().abandonment, held, books)
    ensures Inv(w.(operations := held, sends := books))
  {
  }

  /** Only acknowledgement handles move. */
  lemma AcknowledgementsKeepInv(w: World, held: multiset<OperationHandle>)
    requires Inv(w) && AcksAreUnnumbered(held)
    ensures Inv(w.(acknowledgements := held))
  {
  }

  lemma SendKeepsInv(w: World, h: OperationHandle)
    requires Inv(w)
    ensures Inv(StepSend(w, h))
  {
    var a, after := w.root.Current(), StepSend(w, h);
    if h in w.operations {
      SendingBalances(a.expected, a.abandonment, w.operations, w.sends, h);
      OperationsKeepInv(w, after.operations, w.sends);
    } else {
      AcknowledgementsKeepInv(w, after.acknowledgements);
    }
  }

  // Events that spend a correlation.

  /** A correlation the slot's own check accepts is a live handle, never an acknowledgement's. */
  lemma CurrentCorrelationIsHeld(w: World, c: Correlation)
    requires Inv(w) && w.root.Idle? && Holds(w, c) && CurrentAuthority(w.root.aggregate, c)
    ensures HeldCorrelation(c) in w.operations
  {
    assert w.root.aggregate.expected.value.authorization != 0;
  }

  lemma SpendingKeepsInv(w: World, after: Aggregate, c: Correlation)
    requires Inv(w) && w.root.Idle? && Holds(w, c) && CurrentAuthority(w.root.aggregate, c)
    requires Sound(after) && !SlotIssued(after.expected)
    requires after.reconnect == w.root.aggregate.reconnect && after.abandonment == w.root.aggregate.abandonment
    requires after.expected.Some? ==> after.expected.value.request == w.root.aggregate.expected.value.request
    requires SameRetained(w.root.aggregate.replay, after.replay)
    ensures Inv(ConsumeHeld(w, after, c))
  {
    var a := w.root.aggregate;
    CurrentCorrelationIsHeld(w, c);
    SpendingBalances(a.expected, after.expected, a.abandonment, w.operations, w.sends, HeldCorrelation(c));
  }

  lemma ReplayDecisionKeepsInv(w: World, d: ReplayDecision, c: Correlation)
    requires Inv(w) && w.root.Idle? && Holds(w, c)
    requires d.ReplayRefused? ==> d.aggregate == w.root.aggregate
    requires d.ReplayApplied? ==> SpendsDetachSoundly(w.root.aggregate, d.aggregate, c)
    ensures Inv(StepReplayDecision(w, d, c))
  {
    if d.ReplayApplied? { SpendingKeepsInv(w, d.aggregate, c); }
  }

  lemma ReplayEventsKeepInv(w: World, e: SpendEvent)
    requires Inv(w) && w.root.Idle?
    requires SpendsOnReplay(e) && Holds(w, e.correlation)
    ensures Inv(StepReplayDecision(w, ReplayDecided(w.root.aggregate, e), e.correlation))
  {
    var a, c := w.root.aggregate, e.correlation;
    match e {
      case FateOfDetach(_) => TransportFateKeepsSound(a, c);
      case AttachOverReplay(attach, _) => ApplyAttachKeepsSound(a, attach, c);
      case LeaveOverReplay(leave, _) => ApplyLeaveKeepsSound(a, leave, c);
      case OutcomeOfReplay(outcome, _) => ApplyOutcomeKeepsSound(a, outcome, c);
    }
    ReplayDecisionKeepsInv(w, ReplayDecided(a, e), c);
  }

  lemma FateKeepsInv(w: World, c: Correlation)
    requires Inv(w) && w.root.Idle? && Holds(w, c)
    ensures Inv(StepFate(w, c))
  {
    var d := RecordExpectedOperationFate(w.root.aggregate, c);
    FateKeepsSound(w.root.aggregate, c);
    if d.FateRecorded? { SpendingKeepsInv(w, d.aggregate, c); }
  }

  /** A value that bypasses the slot is applied, and takes the correlation with it. */
  lemma BypassKeepsInv(w: World, c: Correlation)
    requires Inv(w) && w.root.Idle? && Holds(w, c) && CurrentAuthority(w.root.aggregate, c)
    ensures Inv(Without(w, HeldCorrelation(c)).(sends := w.sends.(stranded := true)))
  {
    var a := w.root.aggregate;
    CurrentCorrelationIsHeld(w, c);
    StrandingBalances(a.expected, a.abandonment, w.operations, w.sends, HeldCorrelation(c));
  }

  lemma RetireKeepsInv(w: World, value: ServerValue, c: Correlation)
    requires Inv(w) && w.root.Idle? && Holds(w, c) && CurrentAuthority(w.root.aggregate, c)
    requires Answers(w.root.aggregate, value)
    ensures Inv(ConsumeHeld(w, RetireExpectedOperation(w.root.aggregate, value), c))
  {
    var after := RetireExpectedOperation(w.root.aggregate, value);
    RetireKeepsSound(w.root.aggregate, value);
    RetireTouchesOnlyItsOwn(w.root.aggregate, value);
    SpendingKeepsInv(w, after, c);
  }

  lemma CorrelatedKeepsInv(w: World, value: ServerValue, c: Correlation)
    requires Inv(w) && w.root.Idle? && Holds(w, c)
    ensures Inv(StepCorrelated(w, value, c))
  {
    SealedDoorRetires(w.root.aggregate, value, c);
    if DecideCorrelatedInbound(w.root.aggregate, value, c).InboundApplied? {
      if BypassesSlot(value) {
        BypassKeepsInv(w, c);
      } else {
        RetireKeepsInv(w, value, c);
      }
    }
  }

  // Loss atoms.

  lemma ResolveKeepsInv(w: World)
    requires Inv(w) && w.root.Idle?
    ensures Inv(StepResolveOperation(w))
  {
    ResolveKeepsSound(w.root.aggregate);
  }

  lemma TakeAbandonedKeepsInv(w: World)
    requires Inv(w) && w.root.Idle?
    ensures Inv(StepTakeAbandoned(w))
  {
    TakingAbandonmentKeepsSound(w.root.aggregate);
  }

  // Reconnect events.

  lemma ReconnectKeepsInv(w: World, r: Reconnect, held: multiset<ReconnectHandle>, books: Ledger)
    requires Inv(w) && w.root.Idle?
    requires SoundReconnect(r) && ConnectionsBalance(r, held, books)
    ensures Inv(w.(root := Idle(w.root.aggregate.(reconnect := r)), reconnects := held, connections := books))
  {
    ReconnectIsIndependent(w.root.aggregate, r);
  }

  lemma PermitBalances(r: Reconnect, after: Reconnect, held: multiset<ReconnectHandle>, books: Ledger, permit: Permit)
    requires ConnectionsBalance(r, held, books) && !ReconnectLossKind(r.state).Some?
    requires IsCurrentReconnect(after, HeldPermit(permit))
    ensures ConnectionsBalance(after, held + multiset{HeldPermit(permit)}, books.(issued := books.issued + 1))
  {
  }

  lemma FreshEventKeepsInv(w: World, event: FreshEvent)
    requires Inv(w) && w.root.Idle?
    ensures Inv(StepFreshEvent(w, event))
  {
    var a := w.root.aggregate;
    var d := RecordFreshEvent(a, event);
    if d.Permitted? {
      PermitBalances(a.reconnect, d.aggregate.reconnect, w.reconnects, w.connections, d.permit);
      var after := StepFreshEvent(w, event);
      ReconnectKeepsInv(w, d.aggregate.reconnect, after.reconnects, after.connections);
    }
  }

  /** No run holds an unissued permit, so there is never one to recover. */
  lemma NoPermitToRecover(w: World)
    requires Inv(w) && w.root.Idle?
    ensures StepRecoverPermit(w) == w
  {
  }

  lemma RedeemBalances(r: Reconnect, held: multiset<ReconnectHandle>, books: Ledger, permit: Permit)
    requires ConnectionsBalance(r, held, books) && HeldPermit(permit) in held
    ensures IsCurrentReconnect(r, HeldPermit(permit))
    ensures ConnectionsBalance(
      r.(state := AttemptInProgress(permit.authorization, permit.event)),
      held - multiset{HeldPermit(permit)} + multiset{HeldReconnectAttempt(Attempt(permit.authorization, permit.event))},
      books)
  {
    OnlyHandle(held, HeldPermit(permit));
  }

  lemma RedeemKeepsInv(w: World, permit: Permit)
    requires Inv(w) && w.root.Idle? && HeldPermit(permit) in w.reconnects
    ensures Inv(StepRedeem(w, permit))
  {
    var a := w.root.aggregate;
    RedeemBalances(a.reconnect, w.reconnects, w.connections, permit);
    ReconnectKeepsInv(w, RedeemAttempt(a, permit).aggregate.reconnect, StepRedeem(w, permit).reconnects, w.connections);
  }

  lemma AttemptFateBalances(
    r: Reconnect, state: ReconnectState, held: multiset<ReconnectHandle>, books: Ledger, attempt: Attempt)
    requires ConnectionsBalance(r, held, books) && HeldReconnectAttempt(attempt) in held
    requires state.ReconnectParked? || state.Online?
    ensures IsCurrentReconnect(r, HeldReconnectAttempt(attempt))
    ensures ConnectionsBalance(
      r.(state := state), held - multiset{HeldReconnectAttempt(attempt)}, books.(consumed := books.consumed + 1))
  {
    OnlyHandle(held, HeldReconnectAttempt(attempt));
  }

  lemma AttemptFateKeepsInv(w: World, attempt: Attempt, fate: AttemptFate)
    requires Inv(w) && w.root.Idle? && HeldReconnectAttempt(attempt) in w.reconnects
    ensures Inv(StepAttemptFate(w, attempt, fate))
  {
    var a, after := w.root.aggregate, StepAttemptFate(w, attempt, fate);
    var state := if fate.Connected? then Online else ReconnectParked;
    AttemptFateBalances(a.reconnect, state, w.reconnects, w.connections, attempt);
    ReconnectKeepsInv(w, a.reconnect.(state := state), after.reconnects, after.connections);
  }

  lemma ResolveReconnectKeepsInv(w: World)
    requires Inv(w) && w.root.Idle?
    ensures Inv(StepResolveReconnect(w))
  {
    var a, after := w.root.aggregate, StepResolveReconnect(w);
    if a.reconnect.lost.Some? {
      ReconnectKeepsInv(w, a.reconnect.(lost := None, state := ReconnectParked), w.reconnects, after.connections);
    }
  }

  // Dropping and crashing.

  lemma DropOperationKeepsInv(w: World, h: OperationHandle)
    requires Inv(w)
    ensures Inv(StepDropOperation(w, h))
  {
    var a := w.root.Current();
    if h in w.operations { StrandingBalances(a.expected, a.abandonment, w.operations, w.sends, h); }
  }

  lemma DropReconnectKeepsInv(w: World, h: ReconnectHandle)
    requires Inv(w)
    ensures Inv(StepDropReconnect(w, h))
  {
    if h in w.reconnects { OnlyHandle(w.reconnects, h); }
  }

  /** Storage that gives back, for every sound aggregate it keeps, exactly the crash of it. */
  ghost predicate Faithful(storage: Storage) {
    forall a :: Sound(a) ==> storage(a) == NotPersisted || storage(a) == Restored(Crashed(a))
  }

  /** A durable aggregate owes exactly what the sealed one does: an unreleased record owes nothing. */
  lemma DurableBalances(w: World)
    requires Inv(w)
    ensures Sound(w.root.Durable())
    ensures SendsBalance(w.root.Durable().expected, w.root.Durable().abandonment, w.operations, w.sends)
  {
  }

  lemma CrashKeepsInv(storage: Storage, w: World)
    requires Faithful(storage) && Inv(w)
    ensures Inv(StepCrash(storage, w))
  {
    var a := w.root.Durable();
    DurableBalances(w);
    CrashBalances(a, w.operations, w.sends);
    CrashKeepsSound(a);
  }

  // Every event.

  lemma SpendKeepsInv(w: World, e: SpendEvent)
    requires Inv(w) && w.root.Idle?
    ensures Inv(StepSpend(w, e))
  {
    if Holds(w, e.correlation) {
      if SpendsOnReplay(e) {
        ReplayEventsKeepInv(w, e);
      } else if e.FateOfOperation? {
        FateKeepsInv(w, e.correlation);
      } else {
        CorrelatedKeepsInv(w, e.value, e.correlation);
      }
    }
  }

  /** The unsealed door never changes the aggregate. */
  lemma UnsealedDoorIsInert(a: Aggregate, value: ServerValue)
    ensures DecideInbound(a, value).aggregate == a
  {
  }

  lemma SlotKeepsInv(w: World, e: SlotEvent)
    requires Inv(w) && w.root.Idle?
    ensures Inv(StepSlot(w, e))
  {
    match e
    case Record(request) => RecordKeepsInv(w, request);
    case Recover => RecoverKeepsInv(w);
    case StartReplay => StartReplayKeepsInv(w);
    case Receive(value) => UnsealedDoorIsInert(w.root.aggregate, value);
    case ResolveOperationLoss => ResolveKeepsInv(w);
    case TakeAbandoned => TakeAbandonedKeepsInv(w);
  }

  lemma ReconnectEventsKeepInv(w: World, e: ReconnectEvent)
    requires Inv(w) && w.root.Idle?
    ensures Inv(StepReconnect(w, e))
  {
    match e
    case FreshEventSeen(event) => FreshEventKeepsInv(w, event);
    case RecoverPermit => NoPermitToRecover(w);
    case Redeem(permit) => if HeldPermit(permit) in w.reconnects { RedeemKeepsInv(w, permit); }
    case FateOfAttempt(t, fate) => if HeldReconnectAttempt(t) in w.reconnects { AttemptFateKeepsInv(w, t, fate); }
    case ResolveReconnectLoss => ResolveReconnectKeepsInv(w);
  }

  /** The reconnect machine, its handles and its books may move, and nothing else. */
  predicate OnlyReconnectMoves(before: World, after: World) {
    before.root.Idle? && after.root.Idle? &&
    after.root.aggregate == before.root.aggregate.(reconnect := after.root.aggregate.reconnect) &&
    after.operations == before.operations && after.acknowledgements == before.acknowledgements &&
    after.sends == before.sends && after.committed == before.committed
  }

  lemma FreshEventMovesOnlyReconnect(w: World, event: FreshEvent)
    requires w.root.Idle?
    ensures OnlyReconnectMoves(w, StepFreshEvent(w, event))
  {
  }

  lemma RecoveryMovesOnlyReconnect(w: World)
    requires w.root.Idle?
    ensures OnlyReconnectMoves(w, StepRecoverPermit(w))
  {
  }

  lemma RedeemMovesOnlyReconnect(w: World, permit: Permit)
    requires w.root.Idle?
    ensures OnlyReconnectMoves(w, StepRedeem(w, permit))
  {
  }

  lemma AttemptFateMovesOnlyReconnect(w: World, attempt: Attempt, fate: AttemptFate)
    requires w.root.Idle?
    ensures OnlyReconnectMoves(w, StepAttemptFate(w, attempt, fate))
  {
  }

  lemma ResolutionMovesOnlyReconnect(w: World)
    requires w.root.Idle?
    ensures OnlyReconnectMoves(w, StepResolveReconnect(w))
  {
  }

  lemma ReconnectTouchesOnlyItsOwn(w: World, e: ReconnectEvent)
    requires w.root.Idle?
    ensures OnlyReconnectMoves(w, StepReconnect(w, e))
  {
    match e
    case FreshEventSeen(event) => FreshEventMovesOnlyReconnect(w, event);
    case RecoverPermit => RecoveryMovesOnlyReconnect(w);
    case Redeem(permit) => RedeemMovesOnlyReconnect(w, permit);
    case FateOfAttempt(attempt, fate) => AttemptFateMovesOnlyReconnect(w, attempt, fate);
    case ResolveReconnectLoss => ResolutionMovesOnlyReconnect(w);
  }

  lemma SealedKeepsInv(w: World, e: SealEvent)
    requires Inv(w)
    ensures Inv(StepSealed(w, e))
  {
    match e
    case Abort => if w.root.Pending? { AbortKeepsInv(w); }
    case Commit => if w.root.Pending? { CommitKeepsInv(w); }
    case Release => if w.root.Committed? { ReleaseKeepsInv(w); }
  }

  lemma HandleKeepsInv(w: World, e: HandleEvent)
    requires Inv(w)
    ensures Inv(StepHandle(w, e))
  {
    match e
    case Send(h) => SendKeepsInv(w, h);
    case DropOperation(h) => DropOperationKeepsInv(w, h);
    case DropReconnect(h) => DropReconnectKeepsInv(w, h);
  }

  lemma IdleStepKeepsInv(storage: Storage, w: World, e: Event)
    requires Inv(w) && w.root.Idle? && (e.OnSlot? || e.Spend? || e.OnReconnect?)
    ensures Inv(Step(storage, w, e))
  {
    match e
    case OnSlot(event) => SlotKeepsInv(w, event);
    case Spend(event) => SpendKeepsInv(w, event);
    case OnReconnect(event) => ReconnectEventsKeepInv(w, event);
  }

  lemma LiveStepKeepsInv(storage: Storage, w: World, e: Event)
    requires Inv(w) && !e.Crash?
    ensures Inv(Step(storage, w, e))
  {
    if e.OnSeal? {
      SealedKeepsInv(w, e.sealEvent);
    } else if e.OnHandle? {
      HandleKeepsInv(w, e.handleEvent);
    } else if w.root.Idle? {
      IdleStepKeepsInv(storage, w, e);
    }
  }

  lemma StepKeepsInv(storage: Storage, w: World, e: Event)
    requires Faithful(storage) && Inv(w)
    ensures Inv(Step(storage, w, e))
  {
    if e.Crash? {
      CrashKeepsInv(storage, w);
    } else {
      LiveStepKeepsInv(storage, w, e);
    }
  }

  lemma {:induction false} ResumedKeepsInv(storage: Storage, w: World, events: seq<Event>)
    requires Faithful(storage) && Inv(w)
    ensures Inv(Resumed(storage, w, events))
    decreases |events|
  {
    if |events| > 0 {
      var before := events[..|events| - 1];
      ResumedKeepsInv(storage, w, before);
      StepKeepsInv(storage, Resumed(storage, w, before), events[|events| - 1]);
    }
  }

  /** The first aggregate, no handle and empty books. */
  predicate FreshWorld(w: World) {
    w.root == Idle(FRESH) && w.committed == [] &&
    w.operations == w.acknowledgements == multiset{} && w.reconnects == multiset{} &&
    w.sends == w.connections == Ledger(0, 0, false)
  }

  lemma FreshWorldIsSound(w: World)
    requires FreshWorld(w)
    ensures Inv(w)
  {
    FreshIsSound();
  }

  /** Every world any run over faithful storage reaches satisfies the invariant. */
  lemma RunKeepsInv(storage: Storage, events: seq<Event>)
    requires Faithful(storage)
    ensures Inv(Run(storage, events))
  {
    FreshWorldIsSound(START);
    ResumedKeepsInv(storage, START, events);
  }

  /** Canonical resume records over any round-tripping frame codec are faithful storage. */
  lemma RecordsAreFaithful(codec: ResumeCodec.FrameCodec)
    requires ResumeCodec.RoundTrips(codec)
    ensures Faithful(RecordStorage(codec))
  {
    forall a | Sound(a)
      ensures RecordStorage(codec)(a) == NotPersisted || RecordStorage(codec)(a) == Restored(Crashed(a))
    {
      SoundRecordRestores(codec, a);
    }
  }
}
