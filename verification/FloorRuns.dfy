/**
 Binding-fate floors over whole runs: a floor is measured at one moment and installed at
 another, while rows, markers and other floors come and go between the two.
 */
module FloorRuns {
  import opened Outcomes
  import opened Wire
  import opened Capacity
  import opened Floor

  /** The frontier and the floors measured against it that have not been installed yet. */
  datatype Owner = Owner(frontier: Frontier, measured: seq<U64>)

  datatype FloorEvent =
    /** Any commit that appends one row and leaves the floor alone. */
    | Append
    /** The next marker candidate is drained into a retained marker row. */
    | DrainMarker
    /** A departing participant's marker rows stop being retained as markers. */
    | DropMarker(marker: U64)
    /** An ordinary record, with the capacity floor its search settled on. */
    | Admit(cursors: seq<U64>, observer: U64, capFloor: U128)
    /** A binding fate measures its floor; it is kept for later. */
    | Measure(remaining: seq<U64>, hardObserver: U64)
    /** A kept measurement is installed. */
    | InstallKept(index: nat)

  function Appended(f: Frontier): Frontier
    requires f.highWatermark < U64_MAX
  {
    f.(records := f.records + [f.highWatermark + 1], highWatermark := f.highWatermark + 1)
  }

  /** The floor a binding fate measures: the floor rule, clamped under the retained markers. */
  function MeasuredFloor(f: Frontier, remaining: seq<U64>, hardObserver: U64): (r: Option<U64>) {
    if hardObserver > f.highWatermark then None
    else
      var computed := FloorTransition(f.floor, Lowest(remaining), f.highWatermark, hardObserver, f.floor).resulting;
      var clamped := MarkerClampedFloor(computed, Lowest(f.markers));
      if clamped > U64_MAX then None else Some(clamped)
  }

  function Admitted(f: Frontier, cursors: seq<U64>, observer: U64, capFloor: U128): (r: Option<Frontier>) {
    if f.highWatermark == U64_MAX || observer > f.highWatermark || capFloor > observer + 1 then None
    else
      var candidate: U64 := f.highWatermark + 1;
      var floor := FloorTransition(f.floor, Lowest(cursors), candidate, observer, capFloor).resulting;
      if floor > U64_MAX then None
      else Some(Frontier(floor, Retain(f.records + [candidate], floor), Retain(f.markers, floor), candidate))
  }

  function FloorStep(o: Owner, e: FloorEvent): (r: Result<Owner, FrontierError>) {
    var f := o.frontier;
    match e
    case Append => if f.highWatermark == U64_MAX then Ok(o) else Ok(o.(frontier := Appended(f)))
    case DrainMarker =>
      if f.highWatermark == U64_MAX then Ok(o)
      else Ok(o.(frontier := Appended(f).(markers := f.markers + [f.highWatermark + 1])))
    case DropMarker(marker) => Ok(o.(frontier := f.(markers := Without(f.markers, marker))))
    case Admit(cursors, observer, capFloor) =>
      (match Admitted(f, cursors, observer, capFloor)
       case None => Ok(o)
       case Some(next) => Ok(o.(frontier := next)))
    case Measure(remaining, observer) =>
      (match MeasuredFloor(f, remaining, observer)
       case None => Ok(o)
       case Some(floor) => Ok(o.(measured := o.measured + [floor])))
    case InstallKept(k) =>
      if k >= |o.measured| then Ok(o)
      else
        var installed :- InstallMeasured(f, o.measured[k]);
        Ok(o.(frontier := installed))
  }

  function Without(markers: seq<U64>, marker: U64): (kept: seq<U64>)
    ensures forall m :: m in kept <==> m in markers && m != marker
  {
    if markers == [] then []
    else
      assert markers == [markers[0]] + markers[1..];
      if markers[0] == marker then Without(markers[1..], marker)
      else [markers[0]] + Without(markers[1..], marker)
  }

  function FloorRun(o: Owner, events: seq<FloorEvent>): (r: Result<Owner, FrontierError>)
    decreases |events|
  {
    if events == [] then Ok(o)
    else
      var before :- FloorRun(o, events[..|events| - 1]);
      FloorStep(before, events[|events| - 1])
  }

  // The invariant.

  /** Exactly the rows from the floor to the watermark are retained, as a restore demands of them. */
  predicate RowsAreContiguous(f: Frontier) {
    f.floor <= f.highWatermark + 1 &&
    |f.records| == f.highWatermark + 1 - f.floor &&
    forall i :: 0 <= i < |f.records| ==> f.records[i] == f.floor + i
  }

  predicate MarkersAreRetained(f: Frontier) {
    forall m :: m in f.markers ==> f.floor <= m <= f.highWatermark
  }

  /** A kept measurement still lies at or below every retained marker and one past the watermark. */
  predicate MeasurementsAreClear(f: Frontier, measured: seq<U64>) {
    forall k, m :: 0 <= k < |measured| && m in f.markers ==> measured[k] <= m
  }

  predicate MeasurementsAreBounded(f: Frontier, measured: seq<U64>) {
    forall k :: 0 <= k < |measured| ==> measured[k] <= f.highWatermark + 1
  }

  predicate OwnerSound(o: Owner) {
    RowsAreContiguous(o.frontier) && MarkersAreRetained(o.frontier) &&
    MeasurementsAreClear(o.frontier, o.measured) && MeasurementsAreBounded(o.frontier, o.measured)
  }

  // Retaining contiguous rows.

  predicate Ascends(seqs: seq<U64>, from: nat) {
    forall i :: 0 <= i < |seqs| ==> seqs[i] == from + i
  }

  lemma {:induction false} RetainOfAscending(seqs: seq<U64>, from: nat, floor: U128)
    requires Ascends(seqs, from) && from <= floor <= from + |seqs|
    ensures Retain(seqs, floor) == seqs[floor - from..]
    decreases |seqs|
  {
    if seqs != [] {
      if from < floor {
        RetainOfAscending(seqs[1..], from + 1, floor);
      } else {
        RetainAll(seqs, floor);
      }
    }
  }

  lemma RetainKeepsContiguous(f: Frontier, floor: U128)
    requires RowsAreContiguous(f) && f.floor <= floor <= f.highWatermark + 1
    ensures RowsAreContiguous(f.(floor := floor, records := Retain(f.records, floor)))
  {
    RetainOfAscending(f.records, f.floor, floor);
  }

  lemma ContiguousRowsAreAllRetained(f: Frontier)
    requires RowsAreContiguous(f)
    ensures Retain(f.records, f.floor) == f.records
  {
    RetainOfAscending(f.records, f.floor, f.floor);
  }

  // Every event keeps the invariant.

  lemma AdmitKeepsSound(o: Owner, cursors: seq<U64>, observer: U64, capFloor: U128)
    requires OwnerSound(o) && Admitted(o.frontier, cursors, observer, capFloor).Some?
    ensures OwnerSound(o.(frontier := Admitted(o.frontier, cursors, observer, capFloor).value))
    ensures Admitted(o.frontier, cursors, observer, capFloor).value.floor >= o.frontier.floor
  {
    var f := o.frontier;
    RetainKeepsContiguous(Appended(f), Admitted(f, cursors, observer, capFloor).value.floor);
  }

  /** A measurement is taken at or under every marker and within one of the watermark. */
  lemma MeasureKeepsSound(o: Owner, remaining: seq<U64>, observer: U64)
    requires OwnerSound(o) && MeasuredFloor(o.frontier, remaining, observer).Some?
    ensures OwnerSound(o.(measured := o.measured + [MeasuredFloor(o.frontier, remaining, observer).value]))
  {
  }

  lemma OwnerFrontierIsSound(o: Owner)
    requires OwnerSound(o)
    ensures Sound(o.frontier) && RowsRetained(o.frontier)
  {
    ContiguousRowsAreAllRetained(o.frontier);
  }

  /** Installing a kept measurement gives exactly that floor, or nothing if the floor has passed it. */
  lemma KeptInstallExact(o: Owner, k: nat)
    requires OwnerSound(o) && k < |o.measured|
    ensures var f := o.frontier;
      var floor: U128 := Max(f.floor, o.measured[k]);
      InstallMeasured(f, o.measured[k]) == Ok(f.(floor := floor, records := Retain(f.records, floor))) &&
      OwnerSound(o.(frontier := f.(floor := floor, records := Retain(f.records, floor))))
  {
    var f := o.frontier;
    OwnerFrontierIsSound(o);
    InstallExact(f, o.measured[k]);
    assert o.measured[k] <= Ceiling(f);
    RetainKeepsContiguous(f, Max(f.floor, o.measured[k]));
  }

  lemma StepKeepsSound(o: Owner, e: FloorEvent)
    requires OwnerSound(o)
    ensures FloorStep(o, e).Ok? && OwnerSound(FloorStep(o, e).value)
    ensures FloorStep(o, e).value.frontier.floor >= o.frontier.floor
  {
    match e
    case Admit(cursors, observer, capFloor) =>
      if Admitted(o.frontier, cursors, observer, capFloor).Some? { AdmitKeepsSound(o, cursors, observer, capFloor); }
    case Measure(remaining, observer) =>
      if MeasuredFloor(o.frontier, remaining, observer).Some? { MeasureKeepsSound(o, remaining, observer); }
    case InstallKept(k) => if k < |o.measured| { KeptInstallExact(o, k); }
    case _ =>
  }

  // What an admission and a measurement do.

  /** A measurement is taken whenever the observer is within the watermark and one past it is a sequence. */
  lemma MeasurementReleasesExactly(f: Frontier, remaining: seq<U64>, observer: U64, s: nat)
    requires Sound(f) && observer <= f.highWatermark < U64_MAX
    ensures MeasuredFloor(f, remaining, observer).Some?
    ensures s < MeasuredFloor(f, remaining, observer).value <==>
      (forall m :: m in f.markers ==> s < m) &&
      (s < f.floor ||
       (s <= observer && (forall c :: c in remaining ==> s <= c) && (remaining == [] ==> s <= f.highWatermark)))
  {
    ReleasesExactly(f.floor, remaining, f.highWatermark, observer, f.floor, s);
    if f.markers != [] { assert Lowest(f.markers).value in f.markers; }
  }

  /** An ordinary record is admitted under the watermark, the observer and its own capacity floor's bound. */
  lemma AdmittedExactly(f: Frontier, cursors: seq<U64>, observer: U64, capFloor: U128)
    requires RowsAreContiguous(f)
    ensures Admitted(f, cursors, observer, capFloor).Some? <==>
      f.highWatermark < U64_MAX && observer <= f.highWatermark && capFloor <= observer + 1
    ensures Admitted(f, cursors, observer, capFloor).Some? ==>
      var after := Admitted(f, cursors, observer, capFloor).value;
      after.highWatermark == f.highWatermark + 1 &&
      after.floor == FloorTransition(f.floor, Lowest(cursors), after.highWatermark, observer, capFloor).resulting
  {
  }

  /** It keeps exactly the rows and markers, its own row included, that its floor does not release. */
  lemma AdmissionKeepsExactly(f: Frontier, cursors: seq<U64>, observer: U64, capFloor: U128, s: U64)
    requires Admitted(f, cursors, observer, capFloor).Some?
    ensures var after := Admitted(f, cursors, observer, capFloor).value;
      (s in after.records <==> s in f.records + [f.highWatermark + 1] && s >= after.floor) &&
      (s in after.markers <==> s in f.markers && s >= after.floor)
  {
  }

  // Whole runs.

  /**
   No run ever reaches a refused install: both guards of the enforcer are backstops. The rows
   stay exactly the range a restore accepts, and the floor never falls.
   */
  lemma {:induction false} RunsNeverRefuse(o: Owner, events: seq<FloorEvent>)
    requires OwnerSound(o)
    ensures FloorRun(o, events).Ok? && OwnerSound(FloorRun(o, events).value)
    ensures FloorRun(o, events).value.frontier.floor >= o.frontier.floor
    decreases |events|
  {
    if events != [] {
      var before := events[..|events| - 1];
      RunsNeverRefuse(o, before);
      StepKeepsSound(FloorRun(o, before).value, events[|events| - 1]);
    }
  }

  /** However stale, a kept measurement installs exactly, keeps every marker, or is subsumed by a higher floor. */
  lemma StaleMeasurementsInstallExactly(o: Owner, events: seq<FloorEvent>, k: nat)
    requires OwnerSound(o)
    requires FloorRun(o, events).Ok? && k < |FloorRun(o, events).value.measured|
    ensures var after := FloorRun(o, events).value;
      var f, measured := after.frontier, after.measured[k];
      FloorStep(after, InstallKept(k)).Ok? &&
      var installed := FloorStep(after, InstallKept(k)).value.frontier;
      installed.floor == Max(f.floor, measured) && installed.markers == f.markers &&
      (AdmissibleInstalledFloor(measured, f.floor, Lowest(f.markers), f.highWatermark) == Subsumed <==>
         measured < f.floor)
  {
    RunsNeverRefuse(o, events);
    var after := FloorRun(o, events).value;
    KeptInstallExact(after, k);
    OwnerFrontierIsSound(after);
    InstallExact(after.frontier, after.measured[k]);
  }

  /** The floor a binding fate computes before the marker clamp. */
  function UnclampedFloor(f: Frontier, remaining: seq<U64>, hardObserver: U64): U128 {
    FloorTransition(f.floor, Lowest(remaining), f.highWatermark, hardObserver, f.floor).resulting
  }

  /**
   Without the clamp a measurement is refused at once if and only if it passes the lowest
   retained marker; with it, never. The clamp is exactly what makes the measurement installable.
   */
  lemma UnclampedMeasurementIsRefused(o: Owner, remaining: seq<U64>, hardObserver: U64)
    requires OwnerSound(o) && hardObserver <= o.frontier.highWatermark
    ensures var f, floor := o.frontier, UnclampedFloor(o.frontier, remaining, hardObserver);
      (EnforcedInstall(f, floor).Err? <==> f.markers != [] && floor > Lowest(f.markers).value) &&
      (EnforcedInstall(f, floor).Err? ==> EnforcedInstall(f, floor) == Err(Precedence)) &&
      EnforcedInstall(f, MarkerClampedFloor(floor, Lowest(f.markers))).Ok?
  {
    var f, floor := o.frontier, UnclampedFloor(o.frontier, remaining, hardObserver);
    if f.markers != [] {
      var lowest := Lowest(f.markers).value;
      assert lowest in f.markers && lowest >= f.floor;
      assert floor > lowest ==> AnyBelow(f.markers, floor);
    }
  }

  /** And such a measurement exists: one marker at the floor, with everyone past it. */
  lemma ClampCanBind()
    ensures var f := Frontier(0, [0, 1], [0], 1);
      OwnerSound(Owner(f, [])) && UnclampedFloor(f, [], 1) > Lowest(f.markers).value
  {
    assert 0 in [0 as U64];
  }
}
