/** Retention capacity: 64-bit resource vectors, widened to 128 bits before any arithmetic. */
module Capacity {
  import opened Outcomes
  import opened Wire

  const U128_MAX: nat := 0xFFFF_FFFF_FFFF_FFFF_FFFF_FFFF_FFFF_FFFF
  type U128 = n: nat | n <= U128_MAX

  datatype ResourceVector = ResourceVector(entries: U64, bytes: U64)

  datatype WideResourceVector = WideResourceVector(entries: U128, bytes: U128) {
    predicate IsZero() { entries == 0 && bytes == 0 }
  }

  datatype ResourceDimension = Entries | Bytes

  function CheckedAdd(a: U128, b: U128): (r: Option<U128>)
    ensures r.Some? <==> a + b <= U128_MAX
    ensures r.Some? ==> r.value == a + b
  {
    if a + b <= U128_MAX then Some(a + b) else None
  }

  // The retained baseline.

  datatype BaselineError = MarkerCreditsExceedIdentitySlots(identitySlots: U64, markerCredits: U64)

  lemma ProductIsMonotone(x: nat, y: nat, a: nat, b: nat)
    requires x <= a && y <= b
    ensures x * y <= a * b
  {
    assert x * y <= x * b;
    assert x * b <= a * b;
  }

  /** One 64-bit charge plus a product of two 64-bit factors always fits 128 bits. */
  lemma ChargeAndProductFit(charge: U64, slots: U64, each: U64)
    ensures charge + slots * each <= U128_MAX
  {
    ProductIsMonotone(slots, each, U64_MAX, U64_MAX);
  }

  /** `S + (I - C) * marker_max`, every operation unchecked in the source. */
  function RetainedBaseline(retained: ResourceVector, identitySlots: U64, markerCredits: U64, markerMax: ResourceVector)
    : (r: Result<WideResourceVector, BaselineError>)
  {
    if markerCredits > identitySlots
    then Err(MarkerCreditsExceedIdentitySlots(identitySlots, markerCredits))
    else
      var slots: U64 := identitySlots - markerCredits;
      ChargeAndProductFit(retained.entries, slots, markerMax.entries);
      ChargeAndProductFit(retained.bytes, slots, markerMax.bytes);
      Ok(WideResourceVector(retained.entries + slots * markerMax.entries, retained.bytes + slots * markerMax.bytes))
  }

  /** The reference: one marker's worth of room for each slot that owns no credit. */
  function Reserved(slots: nat, each: nat): nat {
    if slots == 0 then 0 else each + Reserved(slots - 1, each)
  }

  lemma {:induction false} ReservedIsProduct(slots: nat, each: nat)
    ensures Reserved(slots, each) == slots * each
  {
    if slots > 0 {
      ReservedIsProduct(slots - 1, each);
      assert slots * each == each + (slots - 1) * each;
    }
  }

  /** The baseline is the retained charge plus one marker per uncredited slot, in both dimensions. */
  lemma BaselineExact(retained: ResourceVector, slots: U64, credits: U64, marker: ResourceVector)
    ensures match RetainedBaseline(retained, slots, credits, marker)
      case Err(e) => credits > slots && e == MarkerCreditsExceedIdentitySlots(slots, credits)
      case Ok(b) =>
        credits <= slots &&
        b.entries == retained.entries + Reserved(slots - credits, marker.entries) &&
        b.bytes == retained.bytes + Reserved(slots - credits, marker.bytes)
  {
    if credits <= slots {
      ReservedIsProduct(slots - credits, marker.entries);
      ReservedIsProduct(slots - credits, marker.bytes);
    }
  }

  /** Taking up a credit lowers the baseline by one marker; keeping a marker of that size restores it. */
  lemma CreditExchange(retained: ResourceVector, slots: U64, credits: U64, marker: ResourceVector)
    requires credits < slots
    requires retained.entries + marker.entries <= U64_MAX && retained.bytes + marker.bytes <= U64_MAX
    ensures RetainedBaseline(
        ResourceVector(retained.entries + marker.entries, retained.bytes + marker.bytes), slots, credits + 1, marker)
      == RetainedBaseline(retained, slots, credits, marker)
  {
    var free := slots - credits;
    assert free * marker.entries == (free - 1) * marker.entries + marker.entries;
    assert free * marker.bytes == (free - 1) * marker.bytes + marker.bytes;
  }

  // The two capacity checks.

  predicate ComponentFits(baseline: U128, q: U64, k: U64, cap: U64) {
    match CheckedAdd(baseline, q)
    case None => false
    case Some(withQ) =>
      match CheckedAdd(withQ, k)
      case None => false
      case Some(required) => required <= cap
  }

  function ZeroDebtCapacityFailure(
    baseline: WideResourceVector, q: ResourceVector, k: ResourceVector, cap: ResourceVector)
    : (r: Option<ResourceDimension>)
  {
    if !ComponentFits(baseline.entries, q.entries, k.entries, cap.entries) then Some(Entries)
    else if !ComponentFits(baseline.bytes, q.bytes, k.bytes, cap.bytes) then Some(Bytes)
    else None
  }

  predicate ZeroDebtAdmission(baseline: WideResourceVector, q: ResourceVector, k: ResourceVector, cap: ResourceVector) {
    ZeroDebtCapacityFailure(baseline, q, k, cap).None?
  }

  datatype MandatoryComponent = MandatoryComponent(debt: U128, absoluteFit: bool, debtWithinBound: bool)

  function MandatoryOf(baseline: U128, q: U64, k: U64, cap: U64): (m: MandatoryComponent) {
    var debt: U128 :=
      match CheckedAdd(baseline, q)
      case None => U128_MAX
      case Some(withQ) =>
        match CheckedAdd(withQ, k)
        case None => U128_MAX
        case Some(required) => if required > cap then required - cap else 0;
    var absoluteFit :=
      match CheckedAdd(baseline, k)
      case None => false
      case Some(required) => required <= cap;
    MandatoryComponent(debt, absoluteFit, debt <= q)
  }

  datatype MandatoryCapacity = MandatoryCapacity(debt: WideResourceVector, absoluteFit: bool, debtWithinBound: bool) {
    predicate IsLegal() { absoluteFit && debtWithinBound }
  }

  function MandatoryCapacityOf(
    baseline: WideResourceVector, q: ResourceVector, k: ResourceVector, cap: ResourceVector): (m: MandatoryCapacity)
  {
    var entries := MandatoryOf(baseline.entries, q.entries, k.entries, cap.entries);
    var bytes := MandatoryOf(baseline.bytes, q.bytes, k.bytes, cap.bytes);
    MandatoryCapacity(
      WideResourceVector(entries.debt, bytes.debt),
      entries.absoluteFit && bytes.absoluteFit,
      entries.debtWithinBound && bytes.debtWithinBound)
  }

  predicate NoEdgeLegal(
    debt: WideResourceVector, baseline: WideResourceVector, q: ResourceVector, k: ResourceVector, cap: ResourceVector)
  {
    debt.IsZero() && ZeroDebtAdmission(baseline, q, k, cap)
  }

  /** The dimension an inequality first fails in, entries before bytes; the reference the checks are held to. */
  function FirstOver(entries: int, entriesLimit: int, bytes: int, bytesLimit: int): Option<ResourceDimension> {
    if entries > entriesLimit then Some(Entries) else if bytes > bytesLimit then Some(Bytes) else None
  }

  /** In unbounded arithmetic: what each check decides, whichever checked addition overflows. */
  lemma ChecksAreExact(b: WideResourceVector, q: ResourceVector, k: ResourceVector, cap: ResourceVector)
    ensures ZeroDebtCapacityFailure(b, q, k, cap) ==
      FirstOver(b.entries + q.entries + k.entries, cap.entries, b.bytes + q.bytes + k.bytes, cap.bytes)
    ensures MandatoryCapacityOf(b, q, k, cap).absoluteFit <==>
      b.entries + k.entries <= cap.entries && b.bytes + k.bytes <= cap.bytes
  {
  }

  /** Absolute fit is the debt bound, and zero debt is zero-debt admission, on every input. */
  lemma ChecksCoincide(b: WideResourceVector, q: ResourceVector, k: ResourceVector, cap: ResourceVector)
    ensures var m := MandatoryCapacityOf(b, q, k, cap);
      (m.absoluteFit <==> m.debtWithinBound) && (m.IsLegal() <==> m.absoluteFit) &&
      (m.debt.IsZero() <==> ZeroDebtAdmission(b, q, k, cap)) &&
      (NoEdgeLegal(m.debt, b, q, k, cap) <==> ZeroDebtAdmission(b, q, k, cap)) &&
      (ZeroDebtAdmission(b, q, k, cap) ==> m.IsLegal())
  {
  }

  /** Where the sum fits 128 bits, debt is the least amount the cap must rise by; where it does not, the maximum. */
  predicate LeastDebt(debt: U128, required: nat, cap: U64) {
    if required <= U128_MAX then required <= cap + debt && (debt > 0 ==> required > cap + debt - 1)
    else debt == U128_MAX
  }

  lemma DebtIsLeast(b: WideResourceVector, q: ResourceVector, k: ResourceVector, cap: ResourceVector)
    ensures var debt := MandatoryCapacityOf(b, q, k, cap).debt;
      LeastDebt(debt.entries, b.entries + q.entries + k.entries, cap.entries) &&
      LeastDebt(debt.bytes, b.bytes + q.bytes + k.bytes, cap.bytes)
  {
  }

  /** The only legal state without an edge, for any reported debt: none owed, and everything fits at once. */
  lemma NoEdgeLegalExactly(
    debt: WideResourceVector, b: WideResourceVector, q: ResourceVector, k: ResourceVector, cap: ResourceVector)
    ensures NoEdgeLegal(debt, b, q, k, cap) <==>
      debt == WideResourceVector(0, 0) &&
      b.entries + q.entries + k.entries <= cap.entries && b.bytes + q.bytes + k.bytes <= cap.bytes
  {
  }

  // Recovery transfers.

  datatype Recovery = Recovery(baseline: WideResourceVector, claim: ResourceVector)

  datatype RecoveryTransferError = RecoveryTransferError(dimension: ResourceDimension)

  function RecoveryTransfer(r: Recovery, charge: ResourceVector): (next: Result<Recovery, RecoveryTransferError>) {
    if charge.entries > r.claim.entries then Err(RecoveryTransferError(Entries))
    else if charge.bytes > r.claim.bytes then Err(RecoveryTransferError(Bytes))
    else
      match (CheckedAdd(r.baseline.entries, charge.entries), CheckedAdd(r.baseline.bytes, charge.bytes))
      case (None, _) => Err(RecoveryTransferError(Entries))
      case (_, None) => Err(RecoveryTransferError(Bytes))
      case (Some(entries), Some(bytes)) =>
        Ok(Recovery(
             WideResourceVector(entries, bytes),
             ResourceVector(r.claim.entries - charge.entries, r.claim.bytes - charge.bytes)))
  }

  function TransferAll(r: Recovery, charges: seq<ResourceVector>): (next: Result<Recovery, RecoveryTransferError>)
    decreases |charges|
  {
    if charges == [] then Ok(r)
    else
      var first :- RecoveryTransfer(r, charges[0]);
      TransferAll(first, charges[1..])
  }

  function EntriesOf(charges: seq<ResourceVector>): nat {
    if charges == [] then 0 else charges[0].entries + EntriesOf(charges[1..])
  }

  function BytesOf(charges: seq<ResourceVector>): nat {
    if charges == [] then 0 else charges[0].bytes + BytesOf(charges[1..])
  }

  /** Any sequence of transfers moves exactly its total from the claim to the baseline. */
  lemma {:induction false} TransfersConserve(r: Recovery, charges: seq<ResourceVector>)
    requires TransferAll(r, charges).Ok?
    ensures var after := TransferAll(r, charges).value;
      after.baseline.entries == r.baseline.entries + EntriesOf(charges) &&
      after.baseline.bytes == r.baseline.bytes + BytesOf(charges) &&
      after.claim.entries == r.claim.entries - EntriesOf(charges) &&
      after.claim.bytes == r.claim.bytes - BytesOf(charges)
    decreases |charges|
  {
    if charges != [] { TransfersConserve(RecoveryTransfer(r, charges[0]).value, charges[1..]); }
  }

  /** So debt, both checks and legality are the same before and after, for every bound and cap. */
  lemma TransfersKeepDebt(r: Recovery, charges: seq<ResourceVector>, q: ResourceVector, cap: ResourceVector)
    requires TransferAll(r, charges).Ok?
    ensures var after := TransferAll(r, charges).value;
      MandatoryCapacityOf(after.baseline, q, after.claim, cap) == MandatoryCapacityOf(r.baseline, q, r.claim, cap) &&
      ZeroDebtCapacityFailure(after.baseline, q, after.claim, cap) ==
        ZeroDebtCapacityFailure(r.baseline, q, r.claim, cap)
  {
    TransfersConserve(r, charges);
  }

  /** From a legal state one transfer fails exactly when the charge exceeds the claim, never by overflow. */
  lemma LegalTransferExact(r: Recovery, charge: ResourceVector, q: ResourceVector, cap: ResourceVector)
    requires MandatoryCapacityOf(r.baseline, q, r.claim, cap).IsLegal()
    ensures var over := FirstOver(charge.entries, r.claim.entries, charge.bytes, r.claim.bytes);
      match RecoveryTransfer(r, charge)
      case Ok(_) => over.None?
      case Err(e) => over == Some(e.dimension)
  {
  }

  /** From a legal state a whole sequence succeeds exactly when its total fits the claim in both dimensions. */
  lemma {:induction false} LegalTransfersExact(
    r: Recovery, charges: seq<ResourceVector>, q: ResourceVector, cap: ResourceVector)
    requires MandatoryCapacityOf(r.baseline, q, r.claim, cap).IsLegal()
    ensures TransferAll(r, charges).Ok? <==>
      EntriesOf(charges) <= r.claim.entries && BytesOf(charges) <= r.claim.bytes
    decreases |charges|
  {
    if charges != [] {
      LegalTransferExact(r, charges[0], q, cap);
      if RecoveryTransfer(r, charges[0]).Ok? {
        var next := RecoveryTransfer(r, charges[0]).value;
        LegalTransfersExact(next, charges[1..], q, cap);
      }
    }
  }

  /** In any state, a charge within the claim fails exactly where it overflows the widened baseline. */
  lemma ClaimedTransferExact(r: Recovery, charge: ResourceVector)
    requires charge.entries <= r.claim.entries && charge.bytes <= r.claim.bytes
    ensures var over := FirstOver(
        r.baseline.entries + charge.entries, U128_MAX, r.baseline.bytes + charge.bytes, U128_MAX);
      match RecoveryTransfer(r, charge)
      case Ok(_) => over.None?
      case Err(e) => over == Some(e.dimension)
  {
  }

  /** In any state, a charge over the claim fails in the first dimension it is over. */
  lemma UnclaimedTransferFails(r: Recovery, charge: ResourceVector)
    requires charge.entries > r.claim.entries || charge.bytes > r.claim.bytes
    ensures RecoveryTransfer(r, charge).Err?
    ensures Some(RecoveryTransfer(r, charge).error.dimension) ==
      FirstOver(charge.entries, r.claim.entries, charge.bytes, r.claim.bytes)
  {
  }

  /** Without legality that overflow is real. */
  lemma IllegalTransferOverflows()
    ensures var r := Recovery(WideResourceVector(U128_MAX, 0), ResourceVector(1, 0));
      RecoveryTransfer(r, ResourceVector(1, 0)) == Err(RecoveryTransferError(Entries))
  {
  }
}
