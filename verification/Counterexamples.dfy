/** Runs from the fresh aggregate on which a simpler claim than the one proved would fail. */
module Counterexamples {
  import opened Outcomes
  import opened Wire
  import opened Participant
  import opened Correlations
  import opened Barrier
  import opened Inbound
  import opened Machine
  import opened MachineInvariant
  import opened Guarantees
  import opened Progress

  /** Nothing is owed and nothing is bound: the next operation may be an enrollment under this number. */
  predicate Ready(w: World, next: nat) {
    w.root.Idle? && w.operations == multiset{} && !w.sends.stranded && next < U64_MAX &&
    w.root.aggregate == FRESH.(nextOperationAuthorization := next)
  }

  /** One enrollment is out and only its correlation is held. */
  predicate Awaiting(w: World, e: EnrollmentEnvelope, number: U64) {
    w.root.Idle? && w.operations == multiset{HeldCorrelation(Correlation(number))} && !w.sends.stranded &&
    w.root.aggregate == FRESH.(
      nextOperationAuthorization := number,
      expected := Some(ExpectedOperation(EnrollmentRequest(e), true, number, None)))
  }

  /** Record, commit, release and send one enrollment. */
  function Enrolling(e: EnrollmentEnvelope, number: U64): seq<Event> {
    [OnSlot(Record(EnrollmentRequest(e))), OnSeal(Commit), OnSeal(Release),
     OnHandle(Send(HeldOperation(Operation(EnrollmentRequest(e), number))))]
  }

  lemma FourSteps(storage: Storage, w: World, a: Event, b: Event, c: Event, d: Event)
    ensures Resumed(storage, w, [a, b, c, d]) ==
      Step(storage, Step(storage, Step(storage, Step(storage, w, a), b), c), d)
  {
    ThreeSteps(storage, w, a, b, c);
    ResumedAppends(storage, w, [a, b, c], d);
    assert [a, b, c] + [d] == [a, b, c, d];
  }

  lemma RecordsEnrollment(w: World, e: EnrollmentEnvelope, next: nat)
    requires Ready(w, next)
    ensures var request, number := EnrollmentRequest(e), next + 1;
      var recorded := w.root.aggregate.(
        nextOperationAuthorization := number, expected := Some(ExpectedOperation(request, false, number, None)));
      StepRecord(w, request) == w.(root := Pending(PendingRecord(recorded, Operation(request, number), None)))
  {
  }

  lemma EnrollmentIsReleased(w: World, e: EnrollmentEnvelope, next: nat) returns (after: World)
    requires Ready(w, next)
    ensures StepRecord(w, EnrollmentRequest(e)).root.Pending?
    ensures StepCommit(StepRecord(w, EnrollmentRequest(e))).root.Committed?
    ensures after == StepSend(
      StepRelease(StepCommit(StepRecord(w, EnrollmentRequest(e)))),
      HeldOperation(Operation(EnrollmentRequest(e), next + 1)))
    ensures Awaiting(after, e, next + 1) && after.committed == w.committed + [EnrollmentRequest(e)]
  {
    var h := HeldOperation(Operation(EnrollmentRequest(e), next + 1));
    RecordsEnrollment(w, e, next);
    var released := StepRelease(StepCommit(StepRecord(w, EnrollmentRequest(e))));
    assert released.operations == multiset{h};
    after := StepSend(released, h);
  }

  lemma EnrollingSteps(storage: Storage, w: World, e: EnrollmentEnvelope, number: U64)
    requires w.root.Idle? && StepRecord(w, EnrollmentRequest(e)).root.Pending?
    ensures var events := Enrolling(e, number);
      Step(storage, Step(storage, Step(storage, Step(storage, w, events[0]), events[1]), events[2]), events[3]) ==
      StepSend(
        StepRelease(StepCommit(StepRecord(w, EnrollmentRequest(e)))),
        HeldOperation(Operation(EnrollmentRequest(e), number)))
  {
    var recorded := StepRecord(w, EnrollmentRequest(e));
    var released := StepRelease(StepCommit(recorded));
    RecordIsAStep(storage, w, EnrollmentRequest(e));
    SealsAreSteps(storage, recorded);
    SendIsAStep(storage, released, HeldOperation(Operation(EnrollmentRequest(e), number)));
  }

  lemma RecordIsAStep(storage: Storage, w: World, request: ClientRequest)
    requires w.root.Idle?
    ensures Step(storage, w, OnSlot(Record(request))) == StepRecord(w, request)
  {
  }

  lemma SealsAreSteps(storage: Storage, w: World)
    requires w.root.Pending?
    ensures Step(storage, w, OnSeal(Commit)) == StepCommit(w)
    ensures Step(storage, StepCommit(w), OnSeal(Release)) == StepRelease(StepCommit(w))
  {
  }

  lemma EnrollmentIsSent(storage: Storage, w: World, e: EnrollmentEnvelope, next: nat)
    requires Ready(w, next)
    ensures var after := Resumed(storage, w, Enrolling(e, next + 1));
      Awaiting(after, e, next + 1) && after.committed == w.committed + [EnrollmentRequest(e)]
  {
    var events := Enrolling(e, next + 1);
    var after := EnrollmentIsReleased(w, e, next);
    EnrollingSteps(storage, w, e, next + 1);
    FourSteps(storage, w, events[0], events[1], events[2], events[3]);
  }

  lemma StartIsReady(w: World)
    requires FreshWorld(w)
    ensures Ready(w, 0)
  {
  }

  // Exact conservation fails at the sealed door.

  lemma RejectionStrands(w: World, e: EnrollmentEnvelope, number: U64, rejection: Detail)
    requires Awaiting(w, e, number)
    ensures var after := StepCorrelated(w, ParticipantTransportRejected(rejection), Correlation(number));
      after.root == w.root && after.sends.stranded && after.operations == multiset{}
  {
  }

  /**
   A transport rejection passed through the sealed door takes the correlation and leaves the
   operation issued: nothing is held, nothing was consumed, and the slot stays filled.
   */
  lemma SealedDoorCanStrand(storage: Storage, e: EnrollmentEnvelope, rejection: Detail)
    ensures var w := Run(storage, Enrolling(e, 1) +
        [Spend(ReceiveCorrelated(ParticipantTransportRejected(rejection), Correlation(1)))]);
      w.root.Idle? && w.root.aggregate.expected.Some? &&
      w.sends.stranded && w.operations == multiset{}
  {
    var spend := ReceiveCorrelated(ParticipantTransportRejected(rejection), Correlation(1));
    StartIsReady(START);
    EnrollmentIsSent(storage, START, e, 0);
    var w := Run(storage, Enrolling(e, 1));
    RejectionStrands(w, e, 1, rejection);
    ResumedAppends(storage, START, Enrolling(e, 1), Spend(spend));
    FateIsAStep(storage, w, Spend(spend));
  }

  // A late settlement refusal is not harmless.

  lemma FateReadies(w: World, e: EnrollmentEnvelope, number: U64)
    requires Awaiting(w, e, number) && number < U64_MAX
    ensures var after := StepFate(w, Correlation(number));
      Ready(after, number) && after.committed == w.committed
  {
  }

  lemma SettlementFrees(w: World, e: EnrollmentEnvelope, number: U64)
    requires Awaiting(w, e, number)
    ensures var d := DecideCorrelatedInbound(
        w.root.aggregate, EnrollmentSettlementBackpressure(e.conversation), Correlation(number));
      d.InboundApplied? && d.aggregate.expected.None?
  {
  }

  /** One enrollment sent and lost, and a second one, under a new token, sent after it. */
  function TwoEnrollments(first: EnrollmentEnvelope, second: EnrollmentEnvelope): seq<Event> {
    Enrolling(first, 1) + [Spend(FateOfOperation(Correlation(1)))] + Enrolling(second, 2)
  }

  lemma NothingAppended<T>(first: seq<T>, rest: seq<T>)
    requires |rest| == 0
    ensures first + rest == first
  {
  }

  lemma LastAppended<T>(first: seq<T>, rest: seq<T>)
    requires |rest| > 0
    ensures (first + rest[..|rest| - 1]) + [rest[|rest| - 1]] == first + rest
  {
  }

  lemma {:induction false} ResumedJoins(storage: Storage, w: World, first: seq<Event>, rest: seq<Event>)
    ensures Resumed(storage, w, first + rest) == Resumed(storage, Resumed(storage, w, first), rest)
    decreases |rest|
  {
    if |rest| == 0 {
      NothingAppended(first, rest);
    } else {
      var front, last := rest[..|rest| - 1], rest[|rest| - 1];
      ResumedJoins(storage, w, first, front);
      ResumedAppends(storage, w, first + front, last);
      LastAppended(first, rest);
    }
  }

  lemma FirstEnrollmentIsLost(storage: Storage, first: EnrollmentEnvelope)
    ensures var w := Run(storage, Enrolling(first, 1) + [Spend(FateOfOperation(Correlation(1)))]);
      Ready(w, 1) && w.committed == [EnrollmentRequest(first)]
  {
    var fate := FateOfOperation(Correlation(1));
    StartIsReady(START);
    EnrollmentIsSent(storage, START, first, 0);
    var sent := Run(storage, Enrolling(first, 1));
    FateReadies(sent, first, 1);
    FateIsAStep(storage, sent, Spend(fate));
    assert StepSpend(sent, fate) == StepFate(sent, Correlation(1));
    ResumedAppends(storage, START, Enrolling(first, 1), Spend(fate));
  }

  lemma SecondEnrollmentIsAwaiting(storage: Storage, first: EnrollmentEnvelope, second: EnrollmentEnvelope)
    ensures var w := Run(storage, TwoEnrollments(first, second));
      Awaiting(w, second, 2) && w.committed == [EnrollmentRequest(first), EnrollmentRequest(second)]
  {
    var lost := Enrolling(first, 1) + [Spend(FateOfOperation(Correlation(1)))];
    FirstEnrollmentIsLost(storage, first);
    EnrollmentIsSent(storage, Run(storage, lost), second, 1);
    ResumedJoins(storage, START, lost, Enrolling(second, 2));
  }

  /**
   A settlement refusal answering the first of two enrollments on a conversation names no
   token. Delivered late, under the authority of the second, it retires the second.
   */
  lemma LateSettlementCanRetire(storage: Storage, first: EnrollmentEnvelope, second: EnrollmentEnvelope)
    requires first.conversation == second.conversation && first.token != second.token
    ensures var w := Run(storage, TwoEnrollments(first, second));
      var late := EnrollmentSettlementBackpressure(first.conversation);
      w.root.Idle? && TokensNeverReused(w.committed) &&
      w.committed == [EnrollmentRequest(first), EnrollmentRequest(second)] &&
      HeldCorrelation(Correlation(2)) in w.operations &&
      MatchesRequest(late, w.committed[0]) && w.root.aggregate.expected.Some? &&
      w.root.aggregate.expected.value.request == w.committed[1] &&
      DecideCorrelatedInbound(w.root.aggregate, late, Correlation(2)).InboundApplied? &&
      DecideCorrelatedInbound(w.root.aggregate, late, Correlation(2)).aggregate.expected.None?
  {
    SecondEnrollmentIsAwaiting(storage, first, second);
    SettlementFrees(Run(storage, TwoEnrollments(first, second)), second, 2);
  }
}
