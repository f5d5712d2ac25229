/** When a slot can be freed: always by local events while its handle lives, and otherwise only by a crash. */
module Progress {
  import opened Outcomes
  import opened Wire
  import opened Participant
  import opened Replays
  import opened Barrier
  import opened Correlations
  import opened Inbound
  import opened Soundness
  import opened Machine
  import opened MachineInvariant
  import opened Guarantees

  // A stranded slot.

  /** The slot is untouched and its authority still stranded. */
  predicate StillStranded(before: World, after: World) {
    before.root.Idle? && after.root.Idle? && after.sends.stranded &&
    after.root.aggregate.expected == before.root.aggregate.expected
  }

  /** A stranded authority leaves no send handle behind, and its slot is live on an unsealed root. */
  lemma StrandedSlotIsLive(w: World)
    requires Inv(w) && w.sends.stranded
    ensures w.root.Idle? && SlotLive(w.root.aggregate.expected) && w.operations == multiset{}
  {
    assert Count(SlotLive(w.root.Current().expected)) == 1;
  }

  lemma SpendLeavesStranded(w: World, e: SpendEvent)
    requires Inv(w) && w.sends.stranded && w.root.Idle?
    ensures StillStranded(w, StepSpend(w, e))
  {
    StrandedSlotIsLive(w);
    if Holds(w, e.correlation) { AckSpendIsInert(w, e); }
  }

  lemma SlotLeavesStranded(w: World, e: SlotEvent)
    requires Inv(w) && w.sends.stranded && w.root.Idle?
    ensures StillStranded(w, StepSlot(w, e))
  {
    StrandedSlotIsLive(w);
    if e.Receive? { UnsealedDoorIsInert(w.root.aggregate, e.value); }
  }

  lemma ReconnectLeavesStranded(w: World, e: ReconnectEvent)
    requires w.sends.stranded && w.root.Idle?
    ensures StillStranded(w, StepReconnect(w, e))
  {
    ReconnectTouchesOnlyItsOwn(w, e);
  }

  lemma HandleLeavesStranded(w: World, e: HandleEvent)
    requires Inv(w) && w.sends.stranded
    ensures StillStranded(w, StepHandle(w, e))
  {
    StrandedSlotIsLive(w);
  }

  lemma StepLeavesStranded(storage: Storage, w: World, e: Event)
    requires Inv(w) && w.sends.stranded && !e.Crash?
    ensures StillStranded(w, Step(storage, w, e))
  {
    StrandedSlotIsLive(w);
    match e
    case OnSlot(event) => SlotLeavesStranded(w, event);
    case OnSeal(_) =>
    case Spend(event) => SpendLeavesStranded(w, event);
    case OnReconnect(event) => ReconnectLeavesStranded(w, event);
    case OnHandle(event) => HandleLeavesStranded(w, event);
  }

  /** Once stranded, no sequence of responses, fates, recoveries or records frees the slot: only a crash can. */
  lemma {:induction false} OnlyCrashFreesStranded(storage: Storage, w: World, events: seq<Event>)
    requires Faithful(storage) && Inv(w) && w.sends.stranded
    requires forall i :: 0 <= i < |events| ==> !events[i].Crash?
    ensures StillStranded(w, Resumed(storage, w, events))
    decreases |events|
  {
    if |events| == 0 {
      StrandedSlotIsLive(w);
    } else {
      var before := events[..|events| - 1];
      OnlyCrashFreesStranded(storage, w, before);
      ResumedKeepsInv(storage, w, before);
      StepLeavesStranded(storage, Resumed(storage, w, before), events[|events| - 1]);
    }
  }

  // Freeing a slot.

  /** Nothing is owed: the slot is empty, or holds a parked detach whose replay can start again. */
  predicate Settled(root: Root) {
    root.Idle? && (root.aggregate.expected.None? || TransportAttemptStarted(root.aggregate).AttemptStarted?)
  }

  lemma ResumedAppends(storage: Storage, w: World, first: seq<Event>, last: Event)
    ensures Resumed(storage, w, first + [last]) == Step(storage, Resumed(storage, w, first), last)
  {
    assert (first + [last])[..|first|] == first;
  }

  lemma OneStep(storage: Storage, w: World, e: Event)
    ensures Resumed(storage, w, [e]) == Step(storage, w, e)
  {
    ResumedAppends(storage, w, [], e);
    assert [] + [e] == [e];
  }

  lemma TwoSteps(storage: Storage, w: World, first: Event, second: Event)
    ensures Resumed(storage, w, [first, second]) == Step(storage, Step(storage, w, first), second)
  {
    OneStep(storage, w, first);
    ResumedAppends(storage, w, [first], second);
    assert [first] + [second] == [first, second];
  }

  lemma ThreeSteps(storage: Storage, w: World, first: Event, second: Event, third: Event)
    ensures Resumed(storage, w, [first, second, third]) ==
      Step(storage, Step(storage, Step(storage, w, first), second), third)
  {
    TwoSteps(storage, w, first, second);
    ResumedAppends(storage, w, [first, second], third);
    assert [first, second] + [third] == [first, second, third];
  }

  lemma LossSettles(w: World)
    requires Inv(w) && w.root.Idle?
    requires w.root.aggregate.expected.None? || w.root.aggregate.OperationLossPending()
    ensures Settled(StepResolveOperation(w).root)
  {
  }

  /** A held correlation settles its slot through its own fate event. */
  function FateOf(slot: ExpectedOperation): Event {
    var c := Correlation(slot.authorization);
    Spend(if slot.request.DetachRequest? then FateOfDetach(c) else FateOfOperation(c))
  }

  lemma OperationFateSettles(a: Aggregate, c: Correlation)
    requires Sound(a) && SlotLive(a.expected) && a.expected.value.authorization == c.authorization
    requires !a.expected.value.request.DetachRequest?
    ensures var d := RecordExpectedOperationFate(a, c); d.FateRecorded? && d.aggregate.expected.None?
  {
  }

  lemma DetachFateSettles(a: Aggregate, c: Correlation)
    requires Sound(a) && SlotLive(a.expected) && a.expected.value.authorization == c.authorization
    requires a.expected.value.request.DetachRequest?
    ensures var d := TransportFateDecided(a, c);
      d.ReplayApplied? && TransportAttemptStarted(d.aggregate).AttemptStarted?
  {
  }

  lemma FateSettles(w: World)
    requires Inv(w) && w.root.Idle? && SlotLive(w.root.aggregate.expected)
    requires HeldCorrelation(Correlation(w.root.aggregate.expected.value.authorization)) in w.operations
    ensures Settled(StepSpend(w, FateOf(w.root.aggregate.expected.value).spendEvent).root)
  {
    var a, c := w.root.aggregate, Correlation(w.root.aggregate.expected.value.authorization);
    if a.expected.value.request.DetachRequest? {
      DetachFateSettles(a, c);
    } else {
      OperationFateSettles(a, c);
    }
  }

  /** A live, unstranded slot has exactly its one handle, and sending it leaves its correlation. */
  lemma SendLeavesCorrelation(w: World) returns (h: OperationHandle)
    requires Inv(w) && w.root.Idle? && SlotLive(w.root.aggregate.expected) && !w.sends.stranded
    ensures var after := StepSend(w, h);
      Inv(after) && after.root == w.root &&
      HeldCorrelation(Correlation(w.root.aggregate.expected.value.authorization)) in after.operations
  {
    assert |w.operations| == 1;
    h :| h in w.operations;
    assert IsCurrent(w.root.aggregate.expected, h);
    SendKeepsInv(w, h);
  }

  /** From any state of a live slot, sending and then its fate settle it. */
  lemma LiveSlotSettles(storage: Storage, w: World) returns (h: OperationHandle)
    requires Inv(w) && w.root.Idle? && SlotLive(w.root.aggregate.expected) && !w.sends.stranded
    ensures var sent := Step(storage, w, OnHandle(Send(h)));
      Settled(Step(storage, sent, FateOf(w.root.aggregate.expected.value)).root)
  {
    h := SendLeavesCorrelation(w);
    SendIsAStep(storage, w, h);
    FateSettles(StepSend(w, h));
    FateIsAStep(storage, StepSend(w, h), FateOf(w.root.aggregate.expected.value));
  }

  lemma SendIsAStep(storage: Storage, w: World, h: OperationHandle)
    ensures Step(storage, w, OnHandle(Send(h))) == StepSend(w, h)
  {
  }

  lemma FateIsAStep(storage: Storage, w: World, e: Event)
    requires w.root.Idle? && e.Spend?
    ensures Step(storage, w, e) == StepSpend(w, e.spendEvent)
  {
  }

  /** An unissued slot is recovered into a live one. */
  lemma RecoverRevives(w: World)
    requires Inv(w) && w.root.Idle? && w.root.aggregate.expected.Some? && !w.root.aggregate.expected.value.issued
    ensures var after := StepRecover(w);
      Inv(after) && after.root.Idle? && SlotLive(after.root.aggregate.expected) && !after.sends.stranded
  {
    RecoverKeepsInv(w);
  }

  lemma RecoverIsAStep(storage: Storage, w: World)
    requires w.root.Idle?
    ensures Step(storage, w, OnSlot(Recover)) == StepRecover(w)
  {
  }

  lemma UnissuedSlotSettles(storage: Storage, w: World) returns (events: seq<Event>)
    requires Inv(w) && w.root.Idle? && w.root.aggregate.expected.Some? && !w.root.aggregate.expected.value.issued
    ensures Settled(Resumed(storage, w, events).root)
    ensures forall i :: 0 <= i < |events| ==> !events[i].Crash?
  {
    var recovered := StepRecover(w);
    RecoverRevives(w);
    RecoverIsAStep(storage, w);
    var h := LiveSlotSettles(storage, recovered);
    var send, fate := OnHandle(Send(h)), FateOf(recovered.root.aggregate.expected.value);
    events := [OnSlot(Recover), send, fate];
    ThreeSteps(storage, w, OnSlot(Recover), send, fate);
  }

  /** No run ends wedged: without a crash, every unstranded slot can be settled from where it stands. */
  lemma UnstrandedSlotSettles(storage: Storage, w: World) returns (events: seq<Event>)
    requires Inv(w) && w.root.Idle? && !w.sends.stranded
    ensures Settled(Resumed(storage, w, events).root)
    ensures forall i :: 0 <= i < |events| ==> !events[i].Crash?
  {
    var slot := w.root.aggregate.expected;
    if slot.None? {
      events := [];
    } else if slot.value.lost.Some? {
      LossSettles(w);
      events := [OnSlot(ResolveOperationLoss)];
      OneStep(storage, w, events[0]);
    } else if slot.value.issued {
      var h := LiveSlotSettles(storage, w);
      events := [OnHandle(Send(h)), FateOf(slot.value)];
      TwoSteps(storage, w, events[0], events[1]);
    } else {
      events := UnissuedSlotSettles(storage, w);
    }
  }

  lemma CrashIsAStep(storage: Storage, w: World)
    requires !w.root.Unrestorable?
    ensures Step(storage, w, Crash) == StepCrash(storage, w)
  {
  }

  lemma ResolveIsAStep(storage: Storage, w: World)
    requires w.root.Idle?
    ensures Step(storage, w, OnSlot(ResolveOperationLoss)) == StepResolveOperation(w)
  {
  }

  lemma CrashedSlotIsLost(storage: Storage, w: World)
    requires Faithful(storage) && Inv(w) && w.sends.stranded && storage(w.root.Durable()) != NotPersisted
    ensures var after := StepCrash(storage, w);
      Inv(after) && after.root.Idle? &&
      (after.root.aggregate.expected.None? || after.root.aggregate.OperationLossPending())
  {
    StrandedSlotIsLive(w);
    CrashKeepsInv(storage, w);
  }

  /** And the crash that frees a stranded slot needs only its loss resolved. */
  lemma CrashSettlesStranded(storage: Storage, w: World)
    requires Faithful(storage) && Inv(w) && w.sends.stranded && storage(w.root.Durable()) != NotPersisted
    ensures Settled(Resumed(storage, w, [Crash, OnSlot(ResolveOperationLoss)]).root)
  {
    var resolve := OnSlot(ResolveOperationLoss);
    CrashedSlotIsLost(storage, w);
    LossSettles(StepCrash(storage, w));
    ResolveIsAStep(storage, StepCrash(storage, w));
    CrashIsAStep(storage, w);
    TwoSteps(storage, w, Crash, resolve);
  }

  // Filling a slot.

  /** The request may take the free slot: the binding accepts it, and no older business stands in its way. */
  predicate MayRecord(a: Aggregate, request: ClientRequest) {
    a.binding.AcceptsRequest(request) && !request.AckRequest? && !request.DetachRequest? && a.expected.None? &&
    a.nextOperationAuthorization < U64_MAX && (request.ObserverRequest? ==> a.abandonment.None?)
  }

  /** The one handle out is the send authority of this request, under the number it was recorded with. */
  predicate HandedOut(w: World, request: ClientRequest, number: U64) {
    w.root.Idle? && w.operations == multiset{HeldOperation(Operation(request, number))} &&
    w.root.aggregate.expected == Some(ExpectedOperation(request, true, number, None))
  }

  lemma RecordedIsReleased(w: World, request: ClientRequest) returns (after: World)
    requires Inv(w) && w.root.Idle? && MayRecord(w.root.aggregate, request)
    ensures StepRecord(w, request).root.Pending? && StepCommit(StepRecord(w, request)).root.Committed?
    ensures after == StepRelease(StepCommit(StepRecord(w, request)))
    ensures HandedOut(after, request, w.root.aggregate.nextOperationAuthorization + 1)
    ensures after.committed == w.committed + [request]
  {
    assert |w.operations| == 0;
    after := StepRelease(StepCommit(StepRecord(w, request)));
  }

  lemma RecordAndSealAreSteps(storage: Storage, w: World, request: ClientRequest)
    requires w.root.Idle? && StepRecord(w, request).root.Pending?
    ensures Step(storage, w, OnSlot(Record(request))) == StepRecord(w, request)
    ensures Step(storage, StepRecord(w, request), OnSeal(Commit)) == StepCommit(StepRecord(w, request))
    ensures Step(storage, StepCommit(StepRecord(w, request)), OnSeal(Release)) ==
      StepRelease(StepCommit(StepRecord(w, request)))
  {
  }

  /** In every state the invariant admits, an accepted request takes the free slot and release hands it out. */
  lemma AcceptedRequestIsHandedOut(storage: Storage, w: World, request: ClientRequest)
    requires Inv(w) && w.root.Idle? && MayRecord(w.root.aggregate, request)
    ensures var after := Resumed(storage, w, [OnSlot(Record(request)), OnSeal(Commit), OnSeal(Release)]);
      HandedOut(after, request, w.root.aggregate.nextOperationAuthorization + 1) &&
      after.committed == w.committed + [request]
  {
    var after := RecordedIsReleased(w, request);
    RecordAndSealAreSteps(storage, w, request);
    ThreeSteps(storage, w, OnSlot(Record(request)), OnSeal(Commit), OnSeal(Release));
  }

  // Answering a slot.

  lemma LiveAnswerRetires(w: World, value: ServerValue, c: Correlation)
    requires Inv(w) && w.root.Idle? && HeldCorrelation(c) in w.operations && Answers(w.root.aggregate, value)
    ensures StepCorrelated(w, value, c).root == Idle(RetireExpectedOperation(w.root.aggregate, value))
    ensures StepCorrelated(w, value, c).operations == multiset{}
  {
    var a := w.root.aggregate;
    assert IsCurrent(a.expected, HeldCorrelation(c));
    OnlyHandle(w.operations, HeldCorrelation(c));
    if BypassesSlot(value) { BypassNamesNoSlottedRequest(value, a.expected.value.request); }
    DoorRetiresExactly(a, value, c);
    SealedDoorRetires(a, value, c);
  }

  /** Every answer to a live operation of any run is adopted: its slot retires by exactly that value. */
  lemma LiveAnswerIsAdopted(storage: Storage, events: seq<Event>, value: ServerValue, c: Correlation)
    requires Faithful(storage) && Run(storage, events).root.Idle?
    requires HeldCorrelation(c) in Run(storage, events).operations
    requires Answers(Run(storage, events).root.aggregate, value)
    ensures var w := Run(storage, events);
      var after := Step(storage, w, Spend(ReceiveCorrelated(value, c)));
      after.root == Idle(RetireExpectedOperation(w.root.aggregate, value)) && after.operations == multiset{}
  {
    var w, spend := Run(storage, events), ReceiveCorrelated(value, c);
    RunKeepsInv(storage, events);
    LiveAnswerRetires(w, value, c);
    FateIsAStep(storage, w, Spend(spend));
    SpendIsCorrelated(w, value, c);
  }

  lemma SpendIsCorrelated(w: World, value: ServerValue, c: Correlation)
    requires w.root.Idle? && HeldCorrelation(c) in w.operations
    ensures StepSpend(w, ReceiveCorrelated(value, c)) == StepCorrelated(w, value, c)
  {
  }
}
