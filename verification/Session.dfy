/**
 A program driving one client: the client object, the seal of a recorded operation, and every
 one-use handle it holds. A ghost world records the run; each method takes the step of the
 machine that its event names, so what is proved of every run holds of the object.
 */
module Sessions {
  import opened Outcomes
  import opened Wire
  import opened Participant
  import opened Replays
  import opened Barrier
  import opened Inbound
  import opened Resume
  import opened ResumeCodec
  import opened Soundness
  import opened Clients
  import opened Machine
  import opened MachineInvariant
  import opened Guarantees
  import opened Progress

  /** The sealed types that hold the client between recording an operation and releasing it. */
  datatype Seal =
    | Unsealed
    | SealedPending(operation: Operation, priorReplay: Option<DetachReplay>)
    | SealedCommit(operation: Operation)

  /** What an applied or refused spend leaves of the root and of the handles. */
  predicate SpendLeaves(w: World, after: World, a: Aggregate, applied: bool, c: Correlation) {
    var kept := if applied then Without(w, HeldCorrelation(c)) else w;
    after.root == Idle(a) && after.operations == kept.operations &&
    after.acknowledgements == kept.acknowledgements && after.reconnects == w.reconnects
  }

  lemma ReplayDecisionLeaves(w: World, d: ReplayDecision, c: Correlation)
    ensures SpendLeaves(w, StepReplayDecision(w, d, c), d.aggregate, d.ReplayApplied?, c)
  {
  }

  lemma FateLeaves(w: World, c: Correlation)
    requires w.root.Idle?
    ensures var d := RecordExpectedOperationFate(w.root.aggregate, c);
      SpendLeaves(w, StepFate(w, c), d.aggregate, d.FateRecorded?, c)
  {
  }

  lemma CorrelatedLeaves(w: World, value: ServerValue, c: Correlation)
    requires w.root.Idle?
    ensures var d := DecideCorrelatedInbound(w.root.aggregate, value, c);
      SpendLeaves(w, StepCorrelated(w, value, c), d.aggregate, d.InboundApplied?, c)
  {
  }

  /** A crash restarts from the durable aggregate's record, if it has one. */
  lemma CrashRestarts(codec: FrameCodec, w: World)
    requires RoundTrips(codec) && Inv(w)
    ensures var durable := w.root.Durable();
      match ResumeRecord(codec, durable)
      case Err(_) => StepCrash(RecordStorage(codec), w) == w
      case Ok(bytes) =>
        Restore(codec, bytes) == Ok(Crashed(durable)) &&
        StepCrash(RecordStorage(codec), w) == Restarted(w, Idle(Crashed(durable)))
  {
    DurableBalances(w);
    SoundRecordRestores(codec, w.root.Durable());
  }

  /** Each further event is one more step of the run. */
  lemma RunAdvances(storage: Storage, history: seq<Event>, e: Event)
    ensures Run(storage, history + [e]) == Step(storage, Run(storage, history), e)
  {
    ResumedAppends(storage, START, history, e);
  }

  lemma RunCrashes(codec: FrameCodec, history: seq<Event>)
    requires RoundTrips(codec)
    ensures var w := Run(RecordStorage(codec), history);
      !w.root.Unrestorable? &&
      match ResumeRecord(codec, w.root.Durable())
      case Err(_) => StepCrash(RecordStorage(codec), w) == w
      case Ok(bytes) =>
        Restore(codec, bytes) == Ok(Crashed(w.root.Durable())) &&
        StepCrash(RecordStorage(codec), w) == Restarted(w, Idle(Crashed(w.root.Durable())))
  {
    RecordsAreFaithful(codec);
    RunKeepsInv(RecordStorage(codec), history);
    CrashRestarts(codec, Run(RecordStorage(codec), history));
  }

  class Session {
    const client: Client
    const codec: FrameCodec
    var seal: Seal
    var operations: multiset<OperationHandle>
    var acknowledgements: multiset<OperationHandle>
    var reconnects: multiset<ReconnectHandle>
    ghost var world: World
    ghost var history: seq<Event>

    function RootOf(): Root
      reads this, client
    {
      match seal
      case Unsealed => Idle(client.View())
      case SealedPending(operation, prior) => Pending(PendingRecord(client.View(), operation, prior))
      case SealedCommit(operation) => Committed(client.View(), operation)
    }

    ghost predicate HandlesMirrored()
      reads this
    {
      world.operations == operations && world.acknowledgements == acknowledgements && world.reconnects == reconnects
    }

    /** The program holds exactly what the world of its run says it holds. */
    ghost predicate Valid()
      reads this, client
    {
      world.root == RootOf() && HandlesMirrored()
    }

    /** The world is the run over everything performed so far. */
    ghost predicate Lawful()
      reads this, client
    {
      Valid() && RoundTrips(codec) && world == Run(RecordStorage(codec), history)
    }

    constructor (codec: FrameCodec)
      requires RoundTrips(codec)
      ensures Lawful() && fresh(client) && history == [] && this.codec == codec
    {
      client := new Client();
      this.codec := codec;
      seal := Unsealed;
      operations, acknowledgements, reconnects := multiset{}, multiset{}, multiset{};
      world, history := START, [];
    }

    predicate HoldsCorrelation(c: Correlation)
      reads this
    {
      HeldCorrelation(c) in operations || HeldCorrelation(c) in acknowledgements
    }

    /** A handle moves out of the bag that holds it. */
    method GiveUp(h: OperationHandle)
      modifies this`operations, this`acknowledgements
      ensures operations == if h in old(operations) then old(operations) - multiset{h} else old(operations)
      ensures acknowledgements ==
        if h in old(operations) then old(acknowledgements) else old(acknowledgements) - multiset{h}
    {
      if h in operations {
        operations := operations - multiset{h};
      } else {
        acknowledgements := acknowledgements - multiset{h};
      }
    }

    // Events on an unsealed client that present no handle.

    method Record(request: ClientRequest)
      requires Valid() && seal.Unsealed?
      modifies this, client
      ensures Valid() && world == StepRecord(old(world), request)
      ensures history == old(history)
    {
      var outcome := client.Record(request);
      match outcome {
        case PendingOutcome(operation, prior) => seal := SealedPending(operation, prior);
        case ContinuousOutcome(operation) =>
          acknowledgements := acknowledgements + multiset{HeldOperation(operation)};
        case RefusedOutcome(_) =>
      }
      world := StepRecord(world, request);
    }

    method Recover()
      requires Valid() && seal.Unsealed?
      modifies this, client
      ensures Valid() && world == StepRecover(old(world))
      ensures history == old(history)
    {
      var r := client.Recover();
      if r.Ok? { operations := operations + multiset{HeldOperation(r.value)}; }
      world := StepRecover(world);
    }

    method StartReplay()
      requires Valid() && seal.Unsealed?
      modifies this, client
      ensures Valid() && world == StepStartReplay(old(world))
      ensures history == old(history)
    {
      var r := client.StartTransportAttempt();
      if r.Ok? { operations := operations + multiset{HeldAttempt(r.value)}; }
      world := StepStartReplay(world);
    }

    method Receive(value: ServerValue)
      requires Valid() && seal.Unsealed?
      modifies this, client
      ensures Valid() && world == StepSlot(old(world), SlotEvent.Receive(value))
      ensures history == old(history)
    {
      var _ := client.Receive(value);
      world := StepSlot(world, SlotEvent.Receive(value));
    }

    method ResolveOperationLoss()
      requires Valid() && seal.Unsealed?
      modifies this, client
      ensures Valid() && world == StepResolveOperation(old(world))
      ensures history == old(history)
    {
      var _ := client.ResolveOperationLoss();
      world := StepResolveOperation(world);
    }

    method TakeAbandoned()
      requires Valid() && seal.Unsealed?
      modifies this, client
      ensures Valid() && world == StepTakeAbandoned(old(world))
      ensures history == old(history)
    {
      var _ := client.TakeAbandoned();
      world := StepTakeAbandoned(world);
    }

    method OnSlot(e: SlotEvent)
      requires Valid() && seal.Unsealed?
      modifies this, client
      ensures Valid() && world == StepSlot(old(world), e)
      ensures history == old(history)
    {
      match e
      case Record(request) => Record(request);
      case Recover => Recover();
      case StartReplay => StartReplay();
      case Receive(value) => Receive(value);
      case ResolveOperationLoss => ResolveOperationLoss();
      case TakeAbandoned => TakeAbandoned();
    }

    // Events that move a seal.

    method OnSeal(e: SealEvent)
      requires Valid()
      modifies this, client
      ensures Valid() && world == StepSealed(old(world), e)
      ensures history == old(history)
    {
      match e {
        case Abort =>
          if seal.SealedPending? {
            client.Abort(seal.operation, seal.priorReplay);
            seal := Unsealed;
          }
        case Commit =>
          if seal.SealedPending? { seal := SealedCommit(seal.operation); }
        case Release =>
          if seal.SealedCommit? {
            client.Release(seal.operation);
            operations := operations + multiset{HeldOperation(seal.operation)};
            seal := Unsealed;
          }
      }
      world := StepSealed(world, e);
    }

    // Events that present a correlation: an applied one takes it, a refused one hands it back.

    /** The client has decided; the correlation goes with an applied decision and the run moves on. */
    method Settle(c: Correlation, applied: bool, ghost after: World)
      requires seal.Unsealed? && HandlesMirrored() && SpendLeaves(world, after, client.View(), applied, c)
      modifies this
      ensures Valid() && world == after && history == old(history)
    {
      if applied { GiveUp(HeldCorrelation(c)); }
      world := after;
    }

    method SpendReplay(e: SpendEvent) returns (r: Result<(), ReplayRefusal>)
      requires SpendsOnReplay(e)
      modifies client
      ensures Decided(ReplayDecided(old(client.View()), e), r, client.View())
    {
      match e
      case FateOfDetach(c) => r := client.DecideTransportFate(c);
      case AttachOverReplay(attach, c) => r := client.ApplyAttachToReplay(attach, c);
      case LeaveOverReplay(leave, c) => r := client.ApplyLeaveToReplay(leave, c);
      case OutcomeOfReplay(outcome, c) => r := client.ApplyOutcomeToReplay(outcome, c);
    }

    method SpendOnReplay(e: SpendEvent)
      requires Valid() && seal.Unsealed? && SpendsOnReplay(e) && HoldsCorrelation(e.correlation)
      modifies this, client
      ensures Valid() && world == StepReplayDecision(
        old(world), ReplayDecided(old(client.View()), e), e.correlation)
      ensures history == old(history)
    {
      ghost var d := ReplayDecided(client.View(), e);
      ReplayDecisionLeaves(world, d, e.correlation);
      var r := SpendReplay(e);
      Settle(e.correlation, r.Ok?, StepReplayDecision(world, d, e.correlation));
    }

    method RecordFate(c: Correlation)
      requires Valid() && seal.Unsealed? && HoldsCorrelation(c)
      modifies this, client
      ensures Valid() && world == StepFate(old(world), c)
      ensures history == old(history)
    {
      FateLeaves(world, c);
      var r := client.RecordFate(c);
      Settle(c, r.Ok?, StepFate(world, c));
    }

    method ReceiveCorrelated(value: ServerValue, c: Correlation)
      requires Valid() && seal.Unsealed? && HoldsCorrelation(c)
      modifies this, client
      ensures Valid() && world == StepCorrelated(old(world), value, c)
      ensures history == old(history)
    {
      CorrelatedLeaves(world, value, c);
      var r := client.ReceiveCorrelated(value, c);
      Settle(c, r.Ok?, StepCorrelated(world, value, c));
    }

    method Spend(e: SpendEvent)
      requires Valid() && seal.Unsealed?
      modifies this, client
      ensures Valid() && world == StepSpend(old(world), e)
      ensures history == old(history)
    {
      if !HoldsCorrelation(e.correlation) {
        return;
      }
      match e
      case FateOfOperation(c) => RecordFate(c);
      case ReceiveCorrelated(value, c) => ReceiveCorrelated(value, c);
      case _ => SpendOnReplay(e);
    }

    // Reconnect events.

    method OnReconnect(e: ReconnectEvent)
      requires Valid() && seal.Unsealed?
      modifies this, client
      ensures Valid() && world == StepReconnect(old(world), e)
      ensures history == old(history)
    {
      match e {
        case FreshEventSeen(event) =>
          var r := client.SeeFreshEvent(event);
          if r.Ok? { reconnects := reconnects + multiset{HeldPermit(r.value)}; }
        case RecoverPermit =>
          var r := client.RecoverPermit();
          if r.Some? { reconnects := reconnects + multiset{HeldPermit(r.value)}; }
        case Redeem(permit) =>
          if HeldPermit(permit) in reconnects {
            var r := client.Redeem(permit);
            if r.Ok? {
              reconnects := reconnects - multiset{HeldPermit(permit)} + multiset{HeldReconnectAttempt(r.value)};
            }
          }
        case FateOfAttempt(attempt, fate) =>
          if HeldReconnectAttempt(attempt) in reconnects {
            var r := client.RecordConnectionFate(attempt, fate);
            if r.Ok? { reconnects := reconnects - multiset{HeldReconnectAttempt(attempt)}; }
          }
        case ResolveReconnectLoss =>
          var _ := client.ResolveReconnectLoss();
      }
      world := StepReconnect(world, e);
    }

    // Events that move a handle.

    method SendHandle(h: OperationHandle)
      requires Valid()
      modifies this
      ensures Valid() && world == StepSend(old(world), h)
      ensures history == old(history)
    {
      var sent := HeldCorrelation(Correlation(h.Authorization()));
      if !h.HeldCorrelation? {
        if h in operations {
          operations := operations - multiset{h} + multiset{sent};
        } else if h in acknowledgements {
          acknowledgements := acknowledgements - multiset{h} + multiset{sent};
        }
      }
      world := StepSend(world, h);
    }

    method DropHandle(h: OperationHandle)
      requires Valid()
      modifies this
      ensures Valid() && world == StepDropOperation(old(world), h)
      ensures history == old(history)
    {
      ghost var after := StepDropOperation(world, h);
      if h in operations {
        operations := operations - multiset{h};
        assert after.operations == operations;
      } else {
        acknowledgements := acknowledgements - multiset{h};
        assert after.acknowledgements == acknowledgements;
      }
      world := after;
    }

    method DropReconnectHandle(h: ReconnectHandle)
      requires Valid()
      modifies this
      ensures Valid() && world == StepDropReconnect(old(world), h)
      ensures history == old(history)
    {
      if h in reconnects { reconnects := reconnects - multiset{h}; }
      world := StepDropReconnect(world, h);
    }

    method OnHandle(e: HandleEvent)
      requires Valid()
      modifies this
      ensures Valid() && world == StepHandle(old(world), e)
      ensures history == old(history)
    {
      match e
      case Send(h) => SendHandle(h);
      case DropOperation(h) => DropHandle(h);
      case DropReconnect(h) => DropReconnectHandle(h);
    }

    // Process loss.

    /** Every handle dies, and the client restarts from a record's bytes. */
    method RestartFrom(bytes: seq<Byte>)
      requires Restore(codec, bytes).Ok?
      modifies this, client
      ensures Valid() && world == Restarted(old(world), Idle(Restore(codec, bytes).value))
      ensures history == old(history)
    {
      var _ := client.Restart(codec, bytes);
      seal := Unsealed;
      operations, acknowledgements, reconnects := multiset{}, multiset{}, multiset{};
      world := Restarted(world, Idle(client.View()));
    }

    /** What survives is the record of the durable aggregate: a pending operation is not in it. */
    method Crash()
      requires Lawful()
      modifies this, client
      ensures Valid() && world == StepCrash(RecordStorage(codec), old(world))
      ensures history == old(history)
    {
      RunCrashes(codec, history);
      var durable := new Client.Holding(RootOf().Durable());
      var bytes := durable.Persist(codec);
      if bytes.Ok? { RestartFrom(bytes.value); }
    }

    // Any event, and any sequence of them.

    method Take(e: Event)
      requires Lawful()
      modifies this, client
      ensures Valid() && world == Step(RecordStorage(codec), old(world), e)
      ensures history == old(history)
    {
      match e
      case OnSlot(event) => if seal.Unsealed? { OnSlot(event); }
      case OnSeal(event) => OnSeal(event);
      case Spend(event) => if seal.Unsealed? { Spend(event); }
      case OnReconnect(event) => if seal.Unsealed? { OnReconnect(event); }
      case OnHandle(event) => OnHandle(event);
      case Crash => Crash();
    }

    method Perform(e: Event)
      requires Lawful()
      modifies this, client
      ensures Lawful() && history == old(history) + [e]
    {
      RunAdvances(RecordStorage(codec), history, e);
      Take(e);
      history := history + [e];
    }
  }

  lemma PrefixGrows<T>(s: seq<T>, i: nat)
    requires i < |s|
    ensures s[..i] + [s[i]] == s[..i + 1]
  {
  }

  lemma WholePrefix<T>(s: seq<T>)
    ensures s[..|s|] == s
  {
  }

  lemma RunIsLawful(codec: FrameCodec, history: seq<Event>)
    requires RoundTrips(codec)
    ensures var w := Run(RecordStorage(codec), history);
      !w.root.Unrestorable? && Conserved(w) && Sound(w.root.Current())
  {
    RecordsAreFaithful(codec);
    AuthorityIsConserved(RecordStorage(codec), history);
    RunKeepsInv(RecordStorage(codec), history);
  }

  /** After any calls the client is sound, its record is never refused as decoupled, and its books conserve. */
  lemma LawfulClientIsSound(session: Session)
    requires session.Lawful()
    ensures session.RootOf() == session.world.root && Conserved(session.world)
    ensures session.RootOf().Current() == session.client.View() && Sound(session.client.View())
    ensures ResumeRecord(session.codec, session.RootOf().Durable()) != Err(DecoupledDetachReplay)
  {
    RunIsLawful(session.codec, session.history);
    EveryRecordRestores(session.codec, session.history);
  }

  /** A new client driven through any events is, at every moment, the run over the events so far. */
  method Drive(codec: FrameCodec, events: seq<Event>) returns (session: Session)
    requires RoundTrips(codec)
    ensures session.Lawful() && session.history == events
  {
    session := new Session(codec);
    for i := 0 to |events|
      invariant session.Lawful() && session.history == events[..i]
      invariant fresh(session) && fresh(session.client)
    {
      session.Perform(events[i]);
      PrefixGrows(events, i);
    }
    WholePrefix(events);
  }
}
