/**
 Crashes to any record ever persisted, however stale. Every recorded operation gets its own
 number; the labels remember which operation each record's slot held and every release made.
 */
module StaleStorage {
  import opened Outcomes
  import opened Wire
  import opened Participant
  import opened Replays
  import opened Barrier
  import opened Inbound
  import opened Resume
  import opened Soundness
  import opened Machine
  import opened MachineInvariant

  datatype StoredRecord = StoredRecord(aggregate: Aggregate, slot: nat)

  /** One release of executable authority; `again` marks recovery and replay starts. */
  datatype ReleaseEntry = ReleaseEntry(number: nat, request: ClientRequest, again: bool)

  datatype Labels = Labels(
    slot: nat,
    recorded: seq<ClientRequest>,
    records: seq<StoredRecord>,
    releases: seq<ReleaseEntry>)

  datatype Shelf = Shelf(world: World, labels: Labels)

  datatype ShelfEvent = Live(event: Event) | Persist | CrashTo(record: nat)

  /** A new process opens its books on what the restored aggregate still owes. */
  function Reopened(a: Aggregate): World {
    World(Idle(a), multiset{}, multiset{}, multiset{},
          Ledger(Count(SlotIssued(a.expected)) + Count(AbandonedIssued(a.abandonment)), 0, false),
          Ledger(Count(ReconnectLossKind(a.reconnect.state).Some?), 0, false),
          if a.expected.Some? then [a.expected.value.request] else [])
  }

  /** The operation a live event puts behind the barrier. */
  function RecordedBy(root: Root, e: Event): Option<ClientRequest> {
    if root.Idle? && e.OnSlot? && e.slotEvent.Record? &&
       RecordOperation(root.aggregate, e.slotEvent.request).RecordPending?
    then Some(e.slotEvent.request)
    else None
  }

  /** The authority a live event releases, and whether its operation was committed by an earlier step. */
  function ReleasedBy(root: Root, e: Event): Option<(ClientRequest, bool)> {
    match e
    case OnSeal(Release) => if root.Committed? then Some((root.operation.request, false)) else None
    case OnSlot(Recover) =>
      if root.Idle? && RecoverExpectedOperation(root.aggregate).Recovered?
      then Some((RecoverExpectedOperation(root.aggregate).operation.request, true))
      else None
    case OnSlot(StartReplay) =>
      if root.Idle? && TransportAttemptStarted(root.aggregate).AttemptStarted?
      then Some((DetachRequest(TransportAttemptStarted(root.aggregate).attempt.request), true))
      else None
    case _ => None
  }

  function Relabel(l: Labels, recorded: Option<ClientRequest>, released: Option<(ClientRequest, bool)>): Labels {
    l.(slot := if recorded.Some? then |l.recorded| else l.slot,
       recorded := if recorded.Some? then l.recorded + [recorded.value] else l.recorded,
       releases :=
         if released.Some? then l.releases + [ReleaseEntry(l.slot, released.value.0, released.value.1)]
         else l.releases)
  }

  function ShelfStep(storage: Storage, s: Shelf, e: ShelfEvent): Shelf {
    match e
    case Live(event) =>
      if event.Crash? then s
      else
        var root := s.world.root;
        Shelf(Step(storage, s.world, event), Relabel(s.labels, RecordedBy(root, event), ReleasedBy(root, event)))
    case Persist => s.(labels := Persisted(s.world.root, s.labels))
    case CrashTo(k) => if k < |s.labels.records| then StaleCrash(storage, s, k) else s
  }

  function Persisted(root: Root, l: Labels): Labels {
    if root.Idle? || root.Committed?
    then l.(records := l.records + [StoredRecord(root.aggregate, l.slot)])
    else l
  }

  function StaleCrash(storage: Storage, s: Shelf, k: nat): Shelf
    requires k < |s.labels.records|
  {
    var record := s.labels.records[k];
    match storage(record.aggregate)
    case NotPersisted => s
    case Restored(a) => Shelf(Reopened(a), s.labels.(slot := record.slot))
    case Unreadable(failure) => s.(world := Restarted(s.world, Unrestorable(failure)))
  }

  function ShelfRun(storage: Storage, events: seq<ShelfEvent>): Shelf
    decreases |events|
  {
    if |events| == 0 then Shelf(START, Labels(0, [], [], []))
    else ShelfStep(storage, ShelfRun(storage, events[..|events| - 1]), events[|events| - 1])
  }

  // The invariant.

  /** A slot holds the operation its number was given to. */
  predicate SlotNumbered(slot: Slot, number: nat, recorded: seq<ClientRequest>) {
    slot.Some? ==> number < |recorded| && recorded[number] == slot.value.request
  }

  /** Outside the barrier a tokenless operation is always already issued. */
  predicate TokenlessIsIssued(root: Root) {
    root.Idle? && root.aggregate.expected.Some? && Tokenless(root.aggregate.expected.value.request) ==>
      root.aggregate.expected.value.issued
  }

  predicate RecordsNumbered(records: seq<StoredRecord>, recorded: seq<ClientRequest>) {
    forall k :: 0 <= k < |records| ==>
      SlotNumbered(records[k].aggregate.expected, records[k].slot, recorded)
  }

  predicate RecordsSound(records: seq<StoredRecord>) {
    forall k :: 0 <= k < |records| ==> Sound(records[k].aggregate)
  }

  /** Every release carries the request its number was recorded with; a tokenless one is never repeated. */
  predicate ReleasesLawful(releases: seq<ReleaseEntry>, recorded: seq<ClientRequest>) {
    (forall i :: 0 <= i < |releases| ==>
       releases[i].number < |recorded| && recorded[releases[i].number] == releases[i].request &&
       (releases[i].again ==> !Tokenless(releases[i].request))) &&
    (forall i, j :: 0 <= i < j < |releases| && releases[i].number == releases[j].number ==>
       !Tokenless(releases[i].request))
  }

  predicate Unreleased(l: Labels) {
    forall i :: 0 <= i < |l.releases| ==> l.releases[i].number != l.slot
  }

  predicate Sealed(root: Root) {
    root.Pending? || root.Committed?
  }

  predicate LabelsAgree(root: Root, l: Labels) {
    !root.Unrestorable? &&
    SlotNumbered(root.Current().expected, l.slot, l.recorded) &&
    TokenlessIsIssued(root) &&
    RecordsNumbered(l.records, l.recorded) &&
    ReleasesLawful(l.releases, l.recorded) &&
    (Sealed(root) ==> Unreleased(l))
  }

  predicate ShelfInv(s: Shelf) {
    Inv(s.world) && LabelsAgree(s.world.root, s.labels) && RecordsSound(s.labels.records)
  }

  // How one live event moves the slot.

  /** The slot keeps its request or empties, and a tokenless one stays issued. */
  predicate SlotFollows(before: Slot, after: Slot) {
    after.Some? ==>
      before.Some? && after.value.request == before.value.request &&
      (Tokenless(after.value.request) && before.value.issued ==> after.value.issued)
  }

  /** An idle root that records nothing stays idle and its slot follows. */
  predicate IdleTracks(before: Root, after: Root) {
    before.Idle? && after.Idle? && SlotFollows(before.aggregate.expected, after.aggregate.expected)
  }

  /** A sealed root keeps its slot until it is aborted, or released as issued. */
  predicate SealedTracks(before: Root, after: Root, released: bool) {
    Sealed(before) && !after.Unrestorable? &&
    (after.Current().expected.Some? ==>
       before.Current().expected.Some? &&
       after.Current().expected.value.request == before.Current().expected.value.request) &&
    TokenlessIsIssued(after) &&
    (released ==> after.Idle?)
  }

  lemma ReplayFollows(a: Aggregate, e: SpendEvent)
    requires SpendsOnReplay(e)
    ensures SlotFollows(a.expected, ReplayDecided(a, e).aggregate.expected)
  {
  }

  lemma CorrelatedFollows(a: Aggregate, value: ServerValue, c: Correlation)
    requires Sound(a)
    ensures SlotFollows(a.expected, DecideCorrelatedInbound(a, value, c).aggregate.expected)
  {
    SealedDoorRetires(a, value, c);
  }

  lemma SpendTracks(w: World, e: SpendEvent)
    requires RootSound(w.root) && w.root.Idle?
    ensures IdleTracks(w.root, StepSpend(w, e).root)
  {
    if SpendsOnReplay(e) {
      ReplayFollows(w.root.aggregate, e);
    } else if e.ReceiveCorrelated? {
      CorrelatedFollows(w.root.aggregate, e.value, e.correlation);
    }
  }

  lemma ReconnectTracks(w: World, e: ReconnectEvent)
    requires w.root.Idle?
    ensures IdleTracks(w.root, StepReconnect(w, e).root)
  {
    ReconnectTouchesOnlyItsOwn(w, e);
  }

  lemma SlotTracks(w: World, e: SlotEvent)
    requires w.root.Idle? && RecordedBy(w.root, OnSlot(e)).None?
    ensures IdleTracks(w.root, StepSlot(w, e).root)
  {
    if e.Receive? { UnsealedDoorIsInert(w.root.aggregate, e.value); }
  }

  lemma IdleStepTracks(storage: Storage, w: World, e: Event)
    requires RootSound(w.root) && w.root.Idle? && !e.Crash? && RecordedBy(w.root, e).None?
    ensures IdleTracks(w.root, Step(storage, w, e).root)
  {
    match e
    case OnSlot(event) => SlotTracks(w, event);
    case Spend(event) => SpendTracks(w, event);
    case OnReconnect(event) => ReconnectTracks(w, event);
    case _ =>
  }

  lemma SealedStepTracks(storage: Storage, w: World, e: Event)
    requires RootSound(w.root) && Sealed(w.root) && !e.Crash?
    ensures SealedTracks(w.root, Step(storage, w, e).root, ReleasedBy(w.root, e).Some?)
  {
  }

  /** A release hands out exactly the slot's request; only the barrier itself hands out a tokenless one. */
  lemma ReleaseIsOfSlot(root: Root, e: Event)
    requires RootSound(root) && TokenlessIsIssued(root) && ReleasedBy(root, e).Some?
    ensures !root.Pending? && root.Current().expected.Some?
    ensures ReleasedBy(root, e).value.0 == root.Current().expected.value.request
    ensures ReleasedBy(root, e).value.1 <==> root.Idle?
    ensures root.Idle? ==> !Tokenless(ReleasedBy(root, e).value.0)
  {
  }

  // The labels alone.

  lemma ReleaseStaysLawful(l: Labels, released: (ClientRequest, bool))
    requires ReleasesLawful(l.releases, l.recorded) && l.slot < |l.recorded| && l.recorded[l.slot] == released.0
    requires released.1 ==> !Tokenless(released.0)
    requires !released.1 ==> Unreleased(l)
    ensures ReleasesLawful(l.releases + [ReleaseEntry(l.slot, released.0, released.1)], l.recorded)
  {
  }

  lemma IdleLabelsAgree(before: Root, after: Root, l: Labels, released: Option<(ClientRequest, bool)>)
    requires LabelsAgree(before, l) && IdleTracks(before, after)
    requires released.Some? ==>
      before.aggregate.expected.Some? && released.value.0 == before.aggregate.expected.value.request &&
      released.value.1 && !Tokenless(released.value.0)
    ensures LabelsAgree(after, Relabel(l, None, released))
  {
    if released.Some? { ReleaseStaysLawful(l, released.value); }
  }

  lemma SealedLabelsAgree(before: Root, after: Root, l: Labels, released: Option<(ClientRequest, bool)>)
    requires LabelsAgree(before, l) && SealedTracks(before, after, released.Some?)
    requires released.Some? ==>
      before.Current().expected.Some? && released.value.0 == before.Current().expected.value.request &&
      !released.value.1
    ensures LabelsAgree(after, Relabel(l, None, released))
  {
    if released.Some? { ReleaseStaysLawful(l, released.value); }
  }

  lemma RecordedLabelsAgree(before: Root, after: Root, l: Labels, request: ClientRequest)
    requires LabelsAgree(before, l) && after.Pending?
    requires after.pending.successor.expected.Some? ==> after.pending.successor.expected.value.request == request
    ensures LabelsAgree(after, Relabel(l, Some(request), None))
  {
  }

  // Every event keeps the invariant.

  lemma RecordingPends(storage: Storage, w: World, e: Event)
    requires RecordedBy(w.root, e).Some?
    ensures ReleasedBy(w.root, e).None? && Step(storage, w, e).root.Pending?
    ensures var slot := Step(storage, w, e).root.pending.successor.expected;
      slot.Some? ==> slot.value.request == RecordedBy(w.root, e).value
  {
  }

  lemma LiveLabelsAgree(storage: Storage, s: Shelf, e: Event)
    requires Inv(s.world) && LabelsAgree(s.world.root, s.labels) && !e.Crash?
    ensures var root := s.world.root;
      LabelsAgree(Step(storage, s.world, e).root, Relabel(s.labels, RecordedBy(root, e), ReleasedBy(root, e)))
  {
    var root, after, released := s.world.root, Step(storage, s.world, e).root, ReleasedBy(s.world.root, e);
    if RecordedBy(root, e).Some? {
      RecordingPends(storage, s.world, e);
      RecordedLabelsAgree(root, after, s.labels, RecordedBy(root, e).value);
    } else {
      if released.Some? { ReleaseIsOfSlot(root, e); }
      if root.Idle? {
        IdleStepTracks(storage, s.world, e);
        IdleLabelsAgree(root, after, s.labels, released);
      } else {
        SealedStepTracks(storage, s.world, e);
        SealedLabelsAgree(root, after, s.labels, released);
      }
    }
  }

  lemma LiveKeepsShelf(storage: Storage, s: Shelf, e: Event)
    requires Faithful(storage) && ShelfInv(s) && !e.Crash?
    ensures ShelfInv(ShelfStep(storage, s, Live(e)))
  {
    StepKeepsInv(storage, s.world, e);
    LiveLabelsAgree(storage, s, e);
  }

  lemma ReopenedIsSound(a: Aggregate)
    requires Sound(a)
    ensures Inv(Reopened(Crashed(a))) && TokenlessIsIssued(Idle(Crashed(a)))
  {
    CrashKeepsSound(a);
  }

  lemma PersistKeepsShelf(s: Shelf)
    requires ShelfInv(s)
    ensures ShelfInv(s.(labels := Persisted(s.world.root, s.labels)))
  {
  }

  lemma StaleCrashKeepsShelf(storage: Storage, s: Shelf, k: nat)
    requires Faithful(storage) && ShelfInv(s) && k < |s.labels.records|
    ensures ShelfInv(StaleCrash(storage, s, k))
  {
    ReopenedIsSound(s.labels.records[k].aggregate);
  }

  lemma ShelfStepKeepsInv(storage: Storage, s: Shelf, e: ShelfEvent)
    requires Faithful(storage) && ShelfInv(s)
    ensures ShelfInv(ShelfStep(storage, s, e))
  {
    match e
    case Live(event) => if !event.Crash? { LiveKeepsShelf(storage, s, event); }
    case Persist => PersistKeepsShelf(s);
    case CrashTo(k) => if k < |s.labels.records| { StaleCrashKeepsShelf(storage, s, k); }
  }

  lemma EmptyShelfIsSound(s: Shelf)
    requires FreshWorld(s.world) && s.labels == Labels(0, [], [], [])
    ensures ShelfInv(s)
  {
    FreshWorldIsSound(s.world);
  }

  lemma {:induction false} ShelfRunKeepsInv(storage: Storage, events: seq<ShelfEvent>)
    requires Faithful(storage)
    ensures ShelfInv(ShelfRun(storage, events))
    decreases |events|
  {
    if |events| == 0 {
      EmptyShelfIsSound(ShelfRun(storage, events));
    } else {
      var before := events[..|events| - 1];
      ShelfRunKeepsInv(storage, before);
      ShelfStepKeepsInv(storage, ShelfRun(storage, before), events[|events| - 1]);
    }
  }

  // The guarantees.

  /** Over any run and any choice of stale records, a tokenless operation is released at most once. */
  lemma TokenlessAtMostOnce(storage: Storage, events: seq<ShelfEvent>, i: nat, j: nat)
    requires Faithful(storage)
    requires var releases := ShelfRun(storage, events).labels.releases;
      i < |releases| && j < |releases| && releases[i].number == releases[j].number
    ensures var releases := ShelfRun(storage, events).labels.releases;
      releases[i].request == releases[j].request &&
      (Tokenless(releases[i].request) ==> i == j && !releases[i].again)
  {
    ShelfRunKeepsInv(storage, events);
    var l := ShelfRun(storage, events).labels;
    LawfulReleases(l.releases, l.recorded, i, j);
  }

  lemma LawfulReleases(releases: seq<ReleaseEntry>, recorded: seq<ClientRequest>, i: nat, j: nat)
    requires ReleasesLawful(releases, recorded)
    requires i < |releases| && j < |releases| && releases[i].number == releases[j].number
    ensures releases[i].request == releases[j].request
    ensures Tokenless(releases[i].request) ==> i == j && !releases[i].again
  {
  }

  /** A crash to any record holding a tokenless operation surfaces it, with its request, and empties the slot. */
  lemma StaleCrashAbandons(storage: Storage, events: seq<ShelfEvent>, k: nat)
    requires Faithful(storage)
    requires var records := ShelfRun(storage, events).labels.records;
      k < |records| && storage(records[k].aggregate) != NotPersisted &&
      records[k].aggregate.expected.Some? && Tokenless(records[k].aggregate.expected.value.request)
    ensures var s := ShelfRun(storage, events);
      var record, after := s.labels.records[k], StaleCrash(storage, s, k).world.root;
      record.slot < |s.labels.recorded| && after.Idle? && after.aggregate.expected.None? &&
      after.aggregate.abandonment == Some(Abandonment(
        s.labels.recorded[record.slot], TokenlessAfterCrash, record.aggregate.expected.value.issued))
  {
    ShelfRunKeepsInv(storage, events);
  }
}
