/** The physical floor: how it is computed, clamped under retained markers, and installed later. */
module Floor {
  import opened Outcomes
  import opened Wire
  import opened Capacity

  function Min(a: int, b: int): int { if a < b then a else b }
  function Max(a: int, b: int): int { if a > b then a else b }

  /** Lowers a computed floor onto the lowest retained marker. */
  function MarkerClampedFloor(computed: U128, lowestMarker: Option<U64>): (floor: U128)
    ensures floor <= computed
    ensures lowestMarker.Some? ==> floor <= lowestMarker.value
    ensures floor == computed || (lowestMarker.Some? && floor == lowestMarker.value)
  {
    match lowestMarker
    case Some(marker) => if computed < marker then computed else marker
    case None => computed
  }

  datatype AdmissibleFloor = Install(floor: U128) | Subsumed

  function AdmissibleInstalledFloor(measured: U128, retained: U128, lowestMarker: Option<U64>, highWatermark: U64)
    : (r: AdmissibleFloor)
  {
    var upper := MarkerClampedFloor(highWatermark + 1, lowestMarker);
    var target := if measured < upper then measured else upper;
    if target < retained then Subsumed else Install(target)
  }

  datatype FloorComputation = FloorComputation(memberCursor: U64, preferred: U128, resulting: U128)

  function FloorTransition(
    current: U128, minimumCursor: Option<U64>, candidateHighWatermark: U64, observerProgress: U64, capFloor: U128)
    : (f: FloorComputation)
  {
    var cursor := if minimumCursor.Some? then minimumCursor.value else candidateHighWatermark;
    var preferred: U128 := if cursor < observerProgress then cursor + 1 else observerProgress + 1;
    var base := if current > preferred then current else preferred;
    FloorComputation(cursor, preferred, if base > capFloor then base else capFloor)
  }

  /** The lowest of a list of sequence numbers. */
  function Lowest(seqs: seq<U64>): (r: Option<U64>)
    ensures r.None? <==> seqs == []
    ensures r.Some? ==> r.value in seqs && forall s :: s in seqs ==> r.value <= s
  {
    if seqs == [] then None
    else
      assert seqs == [seqs[0]] + seqs[1..];
      match Lowest(seqs[1..])
      case None => Some(seqs[0])
      case Some(rest) => Some(if seqs[0] < rest then seqs[0] else rest)
  }

  /** Each reported part of a floor computation: the cursor used, the floor it prefers, and the highest of the three. */
  lemma FloorPartsExact(
    current: U128, cursors: seq<U64>, highWatermark: U64, observer: U64, capFloor: U128)
    ensures var f := FloorTransition(current, Lowest(cursors), highWatermark, observer, capFloor);
      (if cursors == [] then f.memberCursor == highWatermark
       else f.memberCursor in cursors && forall c :: c in cursors ==> f.memberCursor <= c) &&
      f.preferred == Min(f.memberCursor, observer) + 1 &&
      f.resulting == Max(current, Max(f.preferred, capFloor))
  {
  }

  /** On any frontier: an install is the clamped measurement, and is made if and only if that is not below the floor. */
  lemma AdmissibleExactly(measured: U128, retained: U128, markers: seq<U64>, highWatermark: U64, floor: U128)
    ensures AdmissibleInstalledFloor(measured, retained, Lowest(markers), highWatermark) == Install(floor) <==>
      floor >= retained && floor <= measured && floor <= highWatermark + 1 &&
      (forall m :: m in markers ==> floor <= m) &&
      (floor == measured || floor == highWatermark + 1 || floor in markers)
  {
    if markers != [] { assert Lowest(markers).value in markers; }
  }

  /**
   Exactly which sequences a floor computation releases: those already below the current or
   the capacity floor, and those every member (or, with none, the watermark) and the observer
   have both passed.
   */
  lemma ReleasesExactly(
    current: U128, cursors: seq<U64>, highWatermark: U64, observer: U64, capFloor: U128, s: nat)
    ensures s < FloorTransition(current, Lowest(cursors), highWatermark, observer, capFloor).resulting <==>
      s < current || s < capFloor ||
      (s <= observer && (forall c :: c in cursors ==> s <= c) && (cursors == [] ==> s <= highWatermark))
  {
    if cursors != [] { assert Lowest(cursors).value in cursors; }
  }

  // The retained frontier and the enforcing install.

  /** Retained rows and marker rows, each held by its delivery sequence. */
  datatype Frontier = Frontier(floor: U128, records: seq<U64>, markers: seq<U64>, highWatermark: U64)

  datatype FrontierError = ResultingFrontier | Precedence

  /** The rows at or above a floor, in order. */
  function Retain(seqs: seq<U64>, floor: U128): (kept: seq<U64>)
    ensures forall s :: s in kept <==> s in seqs && s >= floor
  {
    if seqs == [] then []
    else
      assert seqs == [seqs[0]] + seqs[1..];
      if seqs[0] >= floor then [seqs[0]] + Retain(seqs[1..], floor)
      else Retain(seqs[1..], floor)
  }

  predicate AnyBelow(seqs: seq<U64>, floor: U128) {
    exists s :: s in seqs && s < floor
  }

  /** The enforcer: refuses a floor outside the retained range or above a retained marker. */
  function EnforcedInstall(f: Frontier, floor: U128): (r: Result<Frontier, FrontierError>) {
    if floor < f.floor || floor > f.highWatermark + 1 then Err(ResultingFrontier)
    else if AnyBelow(f.markers, floor) then Err(Precedence)
    else Ok(f.(floor := floor, records := Retain(f.records, floor), markers := Retain(f.markers, floor)))
  }

  /** A floor measured earlier is re-minted against the frontier as it stands, then installed. */
  function InstallMeasured(f: Frontier, measured: U128): (r: Result<Frontier, FrontierError>) {
    match AdmissibleInstalledFloor(measured, f.floor, Lowest(f.markers), f.highWatermark)
    case Subsumed => Ok(f)
    case Install(floor) => EnforcedInstall(f, floor)
  }

  /** No marker sits below the floor, and the floor is at most one past the watermark. */
  predicate Sound(f: Frontier) {
    (forall m :: m in f.markers ==> m >= f.floor) && f.floor <= f.highWatermark + 1
  }

  /** The highest floor the frontier can take: its lowest marker, or one past the watermark. */
  function Ceiling(f: Frontier): U128 {
    MarkerClampedFloor(f.highWatermark + 1, Lowest(f.markers))
  }

  /** The enforcer takes a floor in the retained range that passes no marker, and keeps exactly what is not below it. */
  lemma EnforcedExactly(f: Frontier, floor: U128)
    ensures var inRange, clear := f.floor <= floor <= f.highWatermark + 1, forall m :: m in f.markers ==> m >= floor;
      match EnforcedInstall(f, floor)
      case Err(ResultingFrontier) => !inRange
      case Err(Precedence) => inRange && !clear
      case Ok(after) =>
        inRange && clear && after.floor == floor && after.highWatermark == f.highWatermark &&
        (forall s :: s in after.records <==> s in f.records && s >= floor) &&
        (forall m :: m in after.markers <==> m in f.markers)
  {
  }

  /** Neither guard of the enforcer can fire on a re-minted floor, sound frontier or not. */
  lemma RemintedFloorIsAccepted(f: Frontier, measured: U128)
    ensures InstallMeasured(f, measured).Ok?
  {
  }

  lemma {:induction false} RetainAll(seqs: seq<U64>, floor: U128)
    requires forall s :: s in seqs ==> s >= floor
    ensures Retain(seqs, floor) == seqs
    decreases |seqs|
  {
    if seqs != [] {
      assert seqs[0] in seqs && forall s :: s in seqs[1..] ==> s in seqs;
      RetainAll(seqs[1..], floor);
    }
  }

  lemma {:induction false} RetainTwice(seqs: seq<U64>, lower: U128, higher: U128)
    requires lower <= higher
    ensures Retain(Retain(seqs, lower), higher) == Retain(seqs, higher)
    decreases |seqs|
  {
    if seqs != [] { RetainTwice(seqs[1..], lower, higher); }
  }

  /** The frontier a measurement takes a sound frontier to: a higher floor, fewer rows, the same markers. */
  function Raised(f: Frontier, measured: U128): Frontier {
    var floor: U128 := Max(f.floor, Min(measured, Ceiling(f)));
    f.(floor := floor, records := Retain(f.records, floor))
  }

  predicate RowsRetained(f: Frontier) {
    Retain(f.records, f.floor) == f.records
  }

  lemma RaisedIsSound(f: Frontier, measured: U128)
    requires Sound(f)
    ensures Sound(Raised(f, measured)) && RowsRetained(Raised(f, measured))
    ensures f.floor <= Raised(f, measured).floor <= Ceiling(f)
  {
    if f.markers != [] { assert Lowest(f.markers).value in f.markers; }
    RetainTwice(f.records, Raised(f, measured).floor, Raised(f, measured).floor);
  }

  lemma RaisedTwice(f: Frontier, first: U128, second: U128)
    requires Sound(f)
    ensures Raised(Raised(f, first), second) == Raised(f, Max(first, second))
  {
    RaisedIsSound(f, first);
    RetainTwice(f.records, Raised(f, first).floor, Raised(f, Max(first, second)).floor);
  }

  /** One install raises the floor to the clamped measurement and loses no marker; below the floor it is subsumed. */
  lemma InstallExact(f: Frontier, measured: U128)
    requires Sound(f) && RowsRetained(f)
    ensures InstallMeasured(f, measured) == Ok(Raised(f, measured))
    ensures AdmissibleInstalledFloor(measured, f.floor, Lowest(f.markers), f.highWatermark).Subsumed? <==>
      measured < f.floor
  {
    RaisedIsSound(f, measured);
    RetainAll(f.markers, Raised(f, measured).floor);
  }

  function InstallAll(f: Frontier, measured: seq<U128>): (r: Result<Frontier, FrontierError>)
    decreases |measured|
  {
    if measured == [] then Ok(f)
    else
      var first :- InstallMeasured(f, measured[0]);
      InstallAll(first, measured[1..])
  }

  /** The highest of a list of measurements, or zero when there are none. */
  function Highest(measured: seq<U128>): (h: U128)
    ensures forall m :: m in measured ==> m <= h
    ensures h == 0 || h in measured
  {
    if measured == [] then 0
    else
      assert measured == [measured[0]] + measured[1..];
      Max(measured[0], Highest(measured[1..]))
  }

  /** Any sequence of stale installs is one install of the highest measurement. */
  lemma {:induction false} InstallAllExact(f: Frontier, measured: seq<U128>)
    requires Sound(f) && RowsRetained(f)
    ensures InstallAll(f, measured) == Ok(Raised(f, Highest(measured)))
    decreases |measured|
  {
    RaisedIsSound(f, 0);
    if measured != [] {
      InstallExact(f, measured[0]);
      RaisedIsSound(f, measured[0]);
      InstallAllExact(Raised(f, measured[0]), measured[1..]);
      RaisedTwice(f, measured[0], Highest(measured[1..]));
    }
  }

  /** Order and repetition do not matter: the same measurements in any order give the same frontier. */
  lemma StaleInstallsCommute(f: Frontier, left: seq<U128>, right: seq<U128>)
    requires Sound(f) && RowsRetained(f)
    requires forall m :: m in left <==> m in right
    ensures InstallAll(f, left) == InstallAll(f, right) && InstallAll(f, left).Ok?
    ensures var after := InstallAll(f, left).value;
      f.floor <= after.floor <= Ceiling(f) && after.markers == f.markers && Sound(after)
  {
    InstallAllExact(f, left);
    InstallAllExact(f, right);
    SameHighest(left, right);
    RaisedIsSound(f, Highest(left));
  }

  lemma SameHighest(left: seq<U128>, right: seq<U128>)
    requires forall m :: m in left <==> m in right
    ensures Highest(left) == Highest(right)
  {
  }
}
