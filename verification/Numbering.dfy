/** Tracking numbers and item codes, and reading them back. */
module Numbering {
  import opened Basics
  import opened Decimals
  import opened CargoState
  import opened CargoSteps
  import opened CargoRuns
  import opened Sequences

  const TRACKING_NUMBER_SEQUENCE_LENGTH: nat := 6
  const ITEM_SEQUENCE_LENGTH: nat := 2

  // --- The two formats --------------------------------------------------------------------

  function FormatTrackingNumber(prefix: string, year: nat, sequence: nat): string {
    prefix + "-" + Decimal(year) + "-" + PadStart(Decimal(sequence), TRACKING_NUMBER_SEQUENCE_LENGTH)
  }

  function FormatItemCode(trackingNumber: string, position: nat): string {
    trackingNumber + "-" + PadStart(Decimal(position), ITEM_SEQUENCE_LENGTH)
  }

  // The part after the last dash, read as a number, and the part before it.
  function SplitNumber(s: string): Option<(string, nat)> {
    var k := LastDash(s, |s|);
    if k == |s| || k + 1 == |s| || !AllDigits(s[k + 1..]) then None else Some((s[..k], Value(s[k + 1..])))
  }

  // The position of the last dash among the first n characters, or the length of the string.
  function LastDash(s: string, n: nat): (k: nat)
    requires n <= |s|
    ensures k <= |s|
  {
    if n == 0 then |s| else if s[n - 1] == '-' then n - 1 else LastDash(s, n - 1)
  }

  function ParseTrackingNumber(s: string): Option<(string, nat, nat)> {
    match SplitNumber(s)
    case None => None
    case Some((front, sequence)) =>
      match SplitNumber(front)
      case None => None
      case Some((prefix, year)) => Some((prefix, year, sequence))
  }

  lemma {:induction false} LastDashBeforeDigits(front: string, digits: string, n: nat)
    requires AllDigits(digits) && |front| < n <= |front| + 1 + |digits|
    ensures LastDash(front + "-" + digits, n) == |front|
  {
    var s := front + "-" + digits;
    if n > |front| + 1 {
      assert s[n - 1] == digits[n - 1 - (|front| + 1)];
      LastDashBeforeDigits(front, digits, n - 1);
    }
  }

  lemma SplitsBack(front: string, digits: string)
    requires AllDigits(digits) && digits != []
    ensures SplitNumber(front + "-" + digits) == Some((front, Value(digits)))
  {
    var s := front + "-" + digits;
    LastDashBeforeDigits(front, digits, |s|);
    assert s[..|front|] == front && s[|front| + 1..] == digits;
  }

  // For every tracking number, whatever it looks like, and every position, also past two digits.
  lemma ItemCodeReadsBack(trackingNumber: string, position: nat)
    ensures SplitNumber(FormatItemCode(trackingNumber, position)) == Some((trackingNumber, position))
  {
    PaddingReadsBack(Decimal(position), ITEM_SEQUENCE_LENGTH);
    DecimalReadsBack(position);
    SplitsBack(trackingNumber, PadStart(Decimal(position), ITEM_SEQUENCE_LENGTH));
  }

  // For every prefix, dashes and digits included, and every year and sequence, also past six digits.
  lemma TrackingNumberReadsBack(prefix: string, year: nat, sequence: nat)
    ensures ParseTrackingNumber(FormatTrackingNumber(prefix, year, sequence)) == Some((prefix, year, sequence))
  {
    var digits := PadStart(Decimal(sequence), TRACKING_NUMBER_SEQUENCE_LENGTH);
    PaddingReadsBack(Decimal(sequence), TRACKING_NUMBER_SEQUENCE_LENGTH);
    DecimalReadsBack(sequence);
    DecimalReadsBack(year);
    var front := prefix + "-" + Decimal(year);
    SplitsBack(front, digits);
    SplitsBack(prefix, Decimal(year));
    assert FormatTrackingNumber(prefix, year, sequence) == front + "-" + digits;
  }

  // Two items of any two shipments have different codes, as long as no two shipments share a tracking
  // number.
  lemma ItemCodesAreUnique(warehouses: set<WarehouseId>, calls: seq<Call>, numbers: map<ShipmentId, string>,
                           i: ItemId, j: ItemId)
    requires i in Run(warehouses, calls).items && j in Run(warehouses, calls).items && i != j
    requires Run(warehouses, calls).shipments.Keys <= numbers.Keys
    requires forall a, b :: a in numbers && b in numbers && a != b ==> numbers[a] != numbers[b]
    ensures var s := Run(warehouses, calls);
      FormatItemCode(numbers[s.items[i].shipment], s.items[i].sequence)
        != FormatItemCode(numbers[s.items[j].shipment], s.items[j].sequence)
  {
    var s := Run(warehouses, calls);
    var a, b := s.items[i], s.items[j];
    ItemCodeReadsBack(numbers[a.shipment], a.sequence);
    ItemCodeReadsBack(numbers[b.shipment], b.sequence);
    if a.shipment == b.shipment {
      RunsKeepNumbers(warehouses, calls);
      assert Numbered(s.items, a.shipment);
      assert i in ItemsOf(s.items, a.shipment) && j in ItemsOf(s.items, a.shipment);
    }
  }
}
