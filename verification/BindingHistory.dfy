/** How the credential binding moves over whole runs. */
module BindingHistory {
  import opened Outcomes
  import opened Wire
  import opened Participant
  import opened Correlations
  import opened Inbound
  import opened Soundness
  import opened Machine
  import opened MachineInvariant

  function BindingOf(w: World): Binding
    requires !w.root.Unrestorable?
  {
    w.root.Current().binding
  }

  predicate DoorRotates(w: World, e: SpendEvent)
    requires w.root.Idle?
  {
    e.ReceiveCorrelated? && Holds(w, e.correlation) &&
    RotatedBy(e.value).Some? && DecideCorrelatedInbound(w.root.aggregate, e.value, e.correlation).InboundApplied?
  }

  /** The step applies an attach receipt through the sealed door. */
  predicate Rotates(w: World, e: Event) {
    w.root.Idle? && e.Spend? && DoorRotates(w, e.spendEvent)
  }

  /** How many steps of a run applied an attach receipt. */
  function Rotations(storage: Storage, w: World, events: seq<Event>): nat
    decreases |events|
  {
    if |events| == 0 then 0
    else
      var before := events[..|events| - 1];
      Rotations(storage, w, before) + Count(Rotates(Resumed(storage, w, before), events[|events| - 1]))
  }

  predicate BindingKept(before: World, after: World) {
    !before.root.Unrestorable? && !after.root.Unrestorable? && BindingOf(after) == BindingOf(before)
  }

  lemma ReconnectKeepsBinding(w: World, e: ReconnectEvent)
    requires w.root.Idle?
    ensures BindingKept(w, StepReconnect(w, e))
  {
    ReconnectTouchesOnlyItsOwn(w, e);
  }

  lemma SlotKeepsBinding(w: World, e: SlotEvent)
    requires w.root.Idle?
    ensures BindingKept(w, StepSlot(w, e))
  {
    if e.Receive? { UnsealedDoorIsInert(w.root.aggregate, e.value); }
  }

  lemma SealKeepsBinding(w: World, e: SealEvent)
    requires !w.root.Unrestorable?
    ensures BindingKept(w, StepSealed(w, e))
  {
  }

  lemma CrashKeepsBinding(storage: Storage, w: World)
    requires Faithful(storage) && Inv(w)
    ensures BindingKept(w, StepCrash(storage, w))
  {
    DurableBalances(w);
  }

  lemma DoorMovesBinding(w: World, value: ServerValue, c: Correlation)
    requires Inv(w) && w.root.Idle? && Holds(w, c)
    ensures var after := StepCorrelated(w, value, c);
      !after.root.Unrestorable? &&
      BindingAdvances(BindingOf(w), BindingOf(after), DoorRotates(w, ReceiveCorrelated(value, c)))
  {
    var a := w.root.aggregate;
    SealedDoorRetires(a, value, c);
    if DecideCorrelatedInbound(a, value, c).InboundApplied? && !BypassesSlot(value) {
      RetireKeepsSound(a, value);
    }
  }

  lemma ReplayKeepsBinding(a: Aggregate, e: SpendEvent)
    requires SpendsOnReplay(e)
    ensures ReplayDecided(a, e).aggregate.binding == a.binding
  {
  }

  lemma FatesKeepBinding(w: World, e: SpendEvent)
    requires w.root.Idle? && !e.ReceiveCorrelated?
    ensures BindingKept(w, StepSpend(w, e))
  {
    if SpendsOnReplay(e) { ReplayKeepsBinding(w.root.aggregate, e); }
  }

  lemma SpendMovesBinding(w: World, e: SpendEvent)
    requires Inv(w) && w.root.Idle?
    ensures var after := StepSpend(w, e);
      !after.root.Unrestorable? && BindingAdvances(BindingOf(w), BindingOf(after), DoorRotates(w, e))
  {
    if !e.ReceiveCorrelated? {
      FatesKeepBinding(w, e);
    } else if Holds(w, e.correlation) {
      DoorMovesBinding(w, e.value, e.correlation);
    }
  }

  lemma HandleKeepsBinding(w: World, e: HandleEvent)
    requires !w.root.Unrestorable?
    ensures BindingKept(w, StepHandle(w, e))
  {
  }

  /** A binding that stays put advances without a rotation. */
  lemma KeptBindingAdvances(before: World, after: World)
    requires BindingKept(before, after)
    ensures BindingAdvances(BindingOf(before), BindingOf(after), false)
  {
  }

  lemma StepKeepsBinding(storage: Storage, w: World, e: Event)
    requires Faithful(storage) && Inv(w) && !(e.Spend? && w.root.Idle?)
    ensures BindingKept(w, Step(storage, w, e))
  {
    match e
    case OnSlot(event) => if w.root.Idle? { SlotKeepsBinding(w, event); }
    case OnSeal(event) => SealKeepsBinding(w, event);
    case Spend(_) =>
    case OnReconnect(event) => if w.root.Idle? { ReconnectKeepsBinding(w, event); }
    case OnHandle(event) => HandleKeepsBinding(w, event);
    case Crash => CrashKeepsBinding(storage, w);
  }

  lemma StepMovesBinding(storage: Storage, w: World, e: Event)
    requires Faithful(storage) && Inv(w)
    ensures var after := Step(storage, w, e);
      !after.root.Unrestorable? && BindingAdvances(BindingOf(w), BindingOf(after), Rotates(w, e))
  {
    if e.Spend? && w.root.Idle? {
      SpendMovesBinding(w, e.spendEvent);
    } else {
      StepKeepsBinding(storage, w, e);
      KeptBindingAdvances(w, Step(storage, w, e));
    }
  }

  /**
   Over any continuation of any run: Left is absorbing, a binding once made never changes
   participant or becomes unbound, and until it is left its generation has risen by exactly
   the number of attach receipts applied.
   */
  lemma {:induction false} BindingIsMonotone(storage: Storage, w: World, events: seq<Event>)
    requires Faithful(storage) && Inv(w)
    ensures Inv(Resumed(storage, w, events))
    ensures var before, after := BindingOf(w), BindingOf(Resumed(storage, w, events));
      (before.Left? ==> after == before) &&
      (!before.Unbound? ==>
         !after.Unbound? && after.conversation == before.conversation && after.participant == before.participant &&
         (!before.Left? && !after.Left? ==>
            after.generation == before.generation + Rotations(storage, w, events)))
    decreases |events|
  {
    ResumedKeepsInv(storage, w, events);
    if |events| > 0 {
      var prefix := events[..|events| - 1];
      BindingIsMonotone(storage, w, prefix);
      StepMovesBinding(storage, Resumed(storage, w, prefix), events[|events| - 1]);
    }
  }
}
