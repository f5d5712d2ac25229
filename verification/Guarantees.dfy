/** What every run of the client guarantees. */
module Guarantees {
  import opened Outcomes
  import opened Wire
  import opened Participant
  import opened Correlations
  import opened Replays
  import opened Barrier
  import opened Inbound
  import opened Reconnects
  import opened Resume
  import opened ResumeCodec
  import opened Soundness
  import opened Machine
  import opened MachineInvariant

  // Restore closure.

  /**
   No run ever persists a record that restore refuses: the write side never finds the replay
   decoupled, and whatever it encodes decodes to the same facts and restores to their crash.
   */
  lemma EveryRecordRestores(codec: FrameCodec, events: seq<Event>)
    requires RoundTrips(codec)
    ensures var root := Run(RecordStorage(codec), events).root;
      !root.Unrestorable? &&
      var record := ResumeRecord(codec, root.Durable());
      record != Err(DecoupledDetachReplay) &&
      (record.Ok? ==>
         DecodeFacts(codec, record.value) == Ok(root.Durable()) &&
         Restore(codec, record.value) == Ok(Crashed(root.Durable())))
  {
    RecordsAreFaithful(codec);
    RunKeepsInv(RecordStorage(codec), events);
    var w := Run(RecordStorage(codec), events);
    DurableBalances(w);
    SoundRecordRestores(codec, w.root.Durable());
    EncodeNeverDecouples(codec, w.root.Durable());
  }

  lemma EncodeNeverDecouples(codec: FrameCodec, a: Aggregate)
    ensures EncodeAggregate(codec, a) != Err(DecoupledDetachReplay)
  {
  }

  // Conservation.

  /** Loss atoms of the operation domain that still stand for a destroyed authority. */
  function PendingSendLosses(a: Aggregate): nat {
    Count(a.OperationLossPending()) + Count(AbandonedIssued(a.abandonment))
  }

  function PendingReconnectLosses(a: Aggregate): nat {
    Count(a.reconnect.lost.Some?)
  }

  /** issued = consumed + live + pending loss atoms, plus the one authority a run may have stranded. */
  predicate Conserved(w: World)
    requires !w.root.Unrestorable?
  {
    var a := w.root.Current();
    |w.operations| + Count(w.sends.stranded) <= 1 &&
    w.sends.issued ==
      w.sends.consumed + |w.operations| + PendingSendLosses(a) + Count(w.sends.stranded) &&
    |w.reconnects| + Count(w.connections.stranded) <= 1 &&
    w.connections.issued ==
      w.connections.consumed + |w.reconnects| + PendingReconnectLosses(a) + Count(w.connections.stranded)
  }

  lemma InvConserves(w: World)
    requires Inv(w)
    ensures Conserved(w)
  {
    var r := w.root.Current().reconnect;
    assert SoundReconnect(r);
    assert SoundSlot(w.root.Current());
  }

  /** Authority is conserved after every step of every run. */
  lemma AuthorityIsConserved(storage: Storage, events: seq<Event>)
    requires Faithful(storage)
    ensures !Run(storage, events).root.Unrestorable? && Conserved(Run(storage, events))
  {
    RunKeepsInv(storage, events);
    InvConserves(Run(storage, events));
  }

  /** Events that keep every handle: no dropping, and slot-bypassing values use the unsealed door. */
  predicate Disciplined(e: Event) {
    (e.OnHandle? ==> e.handleEvent.Send?) &&
    (e.Spend? && e.spendEvent.ReceiveCorrelated? ==> !BypassesSlot(e.spendEvent.value))
  }

  /** Stranding moves from unset to set only where a handle leaves the program without its slot. */
  predicate NoNewStranding(before: World, after: World) {
    (after.sends.stranded ==> before.sends.stranded) &&
    (after.connections.stranded ==> before.connections.stranded)
  }

  /** The events that lose a handle: a drop, or the sealed door. */
  predicate MayStrand(e: Event) {
    (e.OnHandle? && !e.handleEvent.Send?) || (e.Spend? && e.spendEvent.ReceiveCorrelated?)
  }

  lemma OnlyDropsAndTheDoorStrand(storage: Storage, w: World, e: Event)
    requires !MayStrand(e)
    ensures NoNewStranding(w, Step(storage, w, e))
  {
    match e
    case OnSlot(event) => if w.root.Idle? { assert NoNewStranding(w, StepSlot(w, event)); }
    case OnSeal(event) => assert NoNewStranding(w, StepSealed(w, event));
    case Spend(event) => if w.root.Idle? { assert NoNewStranding(w, StepSpend(w, event)); }
    case OnReconnect(event) => if w.root.Idle? { assert NoNewStranding(w, StepReconnect(w, event)); }
    case OnHandle(event) => assert NoNewStranding(w, StepHandle(w, event));
    case Crash =>
  }

  /** The sealed door keeps the correlation's slot issued, exactly on these values and bindings. */
  predicate DoorStrands(a: Aggregate, value: ServerValue) {
    BypassesSlot(value) && !a.binding.Left? &&
    (value.AckAnswer? ==> a.binding.MatchesAck(value.ack))
  }

  /** What the sealed door does to the books of a sound world. */
  lemma DoorStrandsExactly(w: World, value: ServerValue, c: Correlation)
    requires Inv(w) && w.root.Idle? && Holds(w, c)
    ensures var after := StepCorrelated(w, value, c);
      after.connections == w.connections &&
      (after.sends.stranded <==>
         w.sends.stranded || (HeldCorrelation(c) in w.operations && DoorStrands(w.root.aggregate, value)))
  {
    var a := w.root.aggregate;
    if CurrentAuthority(a, c) {
      CurrentCorrelationIsHeld(w, c);
      BypassAppliesExactly(a, value, c);
    } else {
      assert !IsCurrent(a.expected, HeldCorrelation(c));
    }
  }

  lemma BypassAppliesExactly(a: Aggregate, value: ServerValue, c: Correlation)
    requires Sound(a) && CurrentAuthority(a, c)
    ensures var d := DecideCorrelatedInbound(a, value, c);
      d.InboundApplied? && d.aggregate.expected.Some? <==> DoorStrands(a, value)
  {
    SealedDoorRetires(a, value, c);
  }

  lemma DisciplineNeverStrands(storage: Storage, w: World, e: Event)
    requires Inv(w) && Disciplined(e)
    ensures NoNewStranding(w, Step(storage, w, e))
  {
    if !MayStrand(e) {
      OnlyDropsAndTheDoorStrand(storage, w, e);
    } else if w.root.Idle? && Holds(w, e.spendEvent.correlation) {
      DoorStrandsExactly(w, e.spendEvent.value, e.spendEvent.correlation);
    }
  }

  /** A disciplined run strands nothing, so issued = consumed + live + pending exactly. */
  lemma {:induction false} DisciplinedRunsConserve(storage: Storage, events: seq<Event>)
    requires Faithful(storage) && forall i :: 0 <= i < |events| ==> Disciplined(events[i])
    ensures var w := Run(storage, events);
      !w.root.Unrestorable? && Conserved(w) && !w.sends.stranded && !w.connections.stranded
    decreases |events|
  {
    AuthorityIsConserved(storage, events);
    if |events| > 0 {
      var before := events[..|events| - 1];
      DisciplinedRunsConserve(storage, before);
      RunKeepsInv(storage, before);
      DisciplineNeverStrands(storage, Run(storage, before), events[|events| - 1]);
    }
  }

  predicate DropsLiveHandle(w: World, e: Event) {
    e.OnHandle? && e.handleEvent.DropOperation? && e.handleEvent.handle in w.operations
  }

  predicate DoorTakesLiveHandle(w: World, e: Event) {
    w.root.Idle? && e.Spend? && e.spendEvent.ReceiveCorrelated? &&
    HeldCorrelation(e.spendEvent.correlation) in w.operations && DoorStrands(w.root.aggregate, e.spendEvent.value)
  }

  /** Exactly when a step strands the live send authority. */
  lemma StrandsExactly(storage: Storage, w: World, e: Event)
    requires Faithful(storage) && Inv(w) && !w.sends.stranded
    ensures Step(storage, w, e).sends.stranded <==> DropsLiveHandle(w, e) || DoorTakesLiveHandle(w, e)
  {
    if !MayStrand(e) {
      OnlyDropsAndTheDoorStrand(storage, w, e);
    } else if e.Spend? && w.root.Idle? && Holds(w, e.spendEvent.correlation) {
      DoorStrandsExactly(w, e.spendEvent.value, e.spendEvent.correlation);
    }
  }

  /** A crash leaves exactly one loss atom for each authority it destroys, live or stranded. */
  lemma CrashTestifiesEachLoss(w: World)
    requires Inv(w)
    ensures var after := Crashed(w.root.Durable());
      PendingSendLosses(after) ==
        PendingSendLosses(w.root.Current()) + |w.operations| + Count(w.sends.stranded) &&
      PendingReconnectLosses(after) ==
        PendingReconnectLosses(w.root.Current()) + |w.reconnects| + Count(w.connections.stranded)
  {
    DurableBalances(w);
    InvConserves(w);
    CrashBalances(w.root.Durable(), w.operations, w.sends);
  }

  // Coupling, honesty, and one detach per generation.

  /** After every step, replay and slot are coupled and every terminal is honest. */
  lemma ReplayStaysCoupledAndHonest(storage: Storage, events: seq<Event>)
    requires Faithful(storage)
    ensures var root := Run(storage, events).root;
      !root.Unrestorable? && Coupled(root.Current()) && HonestTerminal(root.Current().replay)
  {
    RunKeepsInv(storage, events);
  }

  /** Committed detaches of one run have strictly increasing generations. */
  lemma OneDetachPerGeneration(storage: Storage, events: seq<Event>)
    requires Faithful(storage)
    ensures DetachesAscend(Run(storage, events).committed)
  {
    RunKeepsInv(storage, events);
  }

  predicate OlderReplayIsSuperseded(a: Aggregate) {
    a.replay.RecordedReplay? && !a.binding.Left? ==>
      !a.binding.Unbound? &&
      (a.replay.request.generation < a.binding.generation ==> a.replay.status.Superseded?)
  }

  /** A detach the binding accepts enters a free slot unless its generation already had one. */
  predicate DetachAdmittedExactly(a: Aggregate, request: DetachEnvelope) {
    a.binding.AcceptsRequest(DetachRequest(request)) && a.expected.None? ==>
      (RecordOperation(a, DetachRequest(request)).RecordPending? <==>
       a.nextOperationAuthorization < U64_MAX &&
       (a.replay.RecordedReplay? ==> a.replay.request.generation < a.binding.generation))
  }

  lemma SoundReplayNeverWedges(a: Aggregate, request: DetachEnvelope)
    requires Sound(a)
    ensures DetachAdmittedExactly(a, request) && OlderReplayIsSuperseded(a)
  {
  }

  /** With the slot free, a detach at the bound generation is admitted unless that generation already had one. */
  lemma NoWedgeAfterRotation(storage: Storage, events: seq<Event>, request: DetachEnvelope)
    requires Faithful(storage) && Run(storage, events).root.Idle?
    ensures var a := Run(storage, events).root.aggregate;
      DetachAdmittedExactly(a, request) && OlderReplayIsSuperseded(a)
  {
    RunKeepsInv(storage, events);
    SoundReplayNeverWedges(Run(storage, events).root.aggregate, request);
  }

  // No stranded handle.

  /**
   Every live handle works: a correlation always has its lifecycle exit, a permit always
   redeems and an attempt always records its fate.
   */
  lemma LiveHandlesAreNeverStale(storage: Storage, events: seq<Event>)
    requires Faithful(storage)
    ensures var w := Run(storage, events);
      (forall h :: h in w.operations ==> w.root.Idle?) &&
      (forall c :: HeldCorrelation(c) in w.operations ==>
         CurrentAuthority(w.root.aggregate, c) &&
         if w.root.aggregate.expected.value.request.DetachRequest?
         then TransportFateDecided(w.root.aggregate, c).ReplayApplied?
         else RecordExpectedOperationFate(w.root.aggregate, c).FateRecorded?)
  {
    var w := Run(storage, events);
    RunKeepsInv(storage, events);
    forall h | h in w.operations
      ensures w.root.Idle?
    {
      assert IsCurrent(w.root.Current().expected, h);
    }
    forall c | HeldCorrelation(c) in w.operations
      ensures CurrentAuthority(w.root.aggregate, c)
      ensures if w.root.aggregate.expected.value.request.DetachRequest?
              then TransportFateDecided(w.root.aggregate, c).ReplayApplied?
              else RecordExpectedOperationFate(w.root.aggregate, c).FateRecorded?
    {
      assert IsCurrent(w.root.Current().expected, HeldCorrelation(c));
    }
  }

  lemma ReconnectHandlesAreNeverStale(
    storage: Storage, events: seq<Event>, permit: Permit, attempt: Attempt, fate: AttemptFate)
    requires Faithful(storage) && Run(storage, events).root.Idle?
    ensures var w := Run(storage, events);
      (HeldPermit(permit) in w.reconnects ==> RedeemAttempt(w.root.aggregate, permit).AttemptBegun?) &&
      (HeldReconnectAttempt(attempt) in w.reconnects ==>
         RecordAttemptFate(w.root.aggregate, attempt, fate).AttemptFateRecorded?)
  {
    RunKeepsInv(storage, events);
  }

  lemma AckSpendIsInert(w: World, e: SpendEvent)
    requires Inv(w) && w.root.Idle? && HeldCorrelation(e.correlation) in w.acknowledgements
    ensures StepSpend(w, e) == w
  {
    assert e.correlation.authorization == 0;
  }

  /** A continuous acknowledgement's correlation never retires, parks or strands anything. */
  lemma AckCorrelationsAreInert(storage: Storage, events: seq<Event>, e: SpendEvent)
    requires Faithful(storage)
    requires HeldCorrelation(e.correlation) in Run(storage, events).acknowledgements
    ensures Step(storage, Run(storage, events), Spend(e)) == Run(storage, events)
  {
    RunKeepsInv(storage, events);
    if Run(storage, events).root.Idle? { AckSpendIsInert(Run(storage, events), e); }
  }

  // Late responses.

  /** The attempt token a request carries, with the family it belongs to. */
  function TokenOf(request: ClientRequest): Option<(RequestClass, Token)> {
    match request
    case EnrollmentRequest(e) => Some((EnrollmentClass, e.token))
    case AttachRequest(e, _) => Some((AttachClass, e.token))
    case DetachRequest(e) => Some((DetachClass, e.token))
    case LeaveRequest(e, _) => Some((LeaveClass, e.token))
    case RecordRequest(e, _) => Some((RecordClass, e.token))
    case _ => None
  }

  predicate TokensNeverReused(log: seq<ClientRequest>) {
    forall i, j :: 0 <= i < j < |log| && TokenOf(log[i]).Some? ==> TokenOf(log[i]) != TokenOf(log[j])
  }

  /** A response keyed to an earlier token-bearing operation changes nothing, whatever handle carries it. */
  lemma LateResponsesAreHarmless(storage: Storage, events: seq<Event>, earlier: nat, value: ServerValue, c: Correlation)
    requires Faithful(storage)
    requires var w := Run(storage, events);
      w.root.Idle? && TokensNeverReused(w.committed) &&
      earlier + 1 < |w.committed| && TokenOf(w.committed[earlier]).Some? &&
      !SettlementRefusal(value) && EchoedEnvelope(value) == w.committed[earlier].Identity()
    ensures var a := Run(storage, events).root.aggregate;
      DecideCorrelatedInbound(a, value, c).InboundRefused?
  {
    RunKeepsInv(storage, events);
    var w := Run(storage, events);
    var a := w.root.aggregate;
    if a.expected.Some? {
      var last := |w.committed| - 1;
      assert w.committed[last] == a.expected.value.request;
      assert TokenOf(w.committed[earlier]) != TokenOf(w.committed[last]);
      LateValueMisses(value, w.committed[earlier], w.committed[last]);
    }
  }

  lemma LateValueMisses(value: ServerValue, answered: ClientRequest, slotted: ClientRequest)
    requires !SettlementRefusal(value) && EchoedEnvelope(value) == answered.Identity()
    requires TokenOf(answered).Some? && TokenOf(answered) != TokenOf(slotted)
    ensures !MatchesRequest(value, slotted) && !BypassesSlot(value)
  {
    if !slotted.ObserverRequest? { MatchesExactly(value, slotted); }
  }

  /**
   Settlement refusals are outside that guarantee: holding current authority, one retires
   whatever request of its family and conversation is in the slot, no matter which it answers.
   */
  lemma SettlementRetiresByFamily(a: Aggregate, value: ServerValue, c: Correlation)
    requires Sound(a) && SettlementRefusal(value) && CurrentAuthority(a, c) && !a.OperationLossPending()
    ensures DecideCorrelatedInbound(a, value, c).InboundApplied? <==>
      OriginatingRequest(value) == Some(a.expected.value.request.Class()) &&
      value.conversation == a.expected.value.request.Identity().value.Conversation()
  {
    if !a.expected.value.request.ObserverRequest? { MatchesExactly(value, a.expected.value.request); }
  }
}
