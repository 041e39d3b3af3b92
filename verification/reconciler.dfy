/**
 * The self-healing validator (validateAndHeal in services/aiEngine.ts). It
 * compares the sum of the line amounts with the document total, all in
 * integer cents, and
 *   - reports SUCCESS when they agree,
 *   - moves a difference of at most 5 cents onto the first largest line (FIX),
 *   - reports a larger difference as a WARNING with a probable cause.
 * The input document is never changed; the caller applies the result.
 */
module Reconciler {

  import opened Types

  /** The largest difference, in cents, that is corrected automatically. */
  const ROUNDING_TOLERANCE: nat := 5

  /**
   * The flat VAT rate of the diagnosis, in percent, and its tolerance of
   * 0.10 expressed on the scale of `121 * sum - 100 * total` (cents times 100).
   */
  const FLAT_VAT_PERCENT: int := 21
  const VAT_TOLERANCE: int := 1000

  datatype ValidationResult = ValidationResult(
    healedLines: seq<LineItem>,
    log: seq<AuditEntry>,
    isValid: bool,
    adjustedTotal: int)

  function Abs(x: int): nat
  {
    if x < 0 then -x else x
  }

  /** The sum of the line amounts. */
  function Sum(lines: seq<LineItem>): int
  {
    if |lines| == 0 then 0 else lines[0].amount + Sum(lines[1..])
  }

  /**
   * The source's summation: a left-to-right `reduce` that adds each amount
   * to an accumulator, from position `i` on.
   */
  function Reduce(lines: seq<LineItem>, i: nat, acc: int): int
    requires i <= |lines|
    decreases |lines| - i
  {
    if i == |lines| then acc else Reduce(lines, i + 1, acc + lines[i].amount)
  }

  /** Folding from position `i` adds the sum of the remaining lines to the accumulator. */
  lemma {:induction false} ReduceFrom(lines: seq<LineItem>, i: nat, acc: int)
    requires i <= |lines|
    ensures Reduce(lines, i, acc) == acc + Sum(lines[i..])
    decreases |lines| - i
  {
    if i < |lines| {
      ReduceFrom(lines, i + 1, acc + lines[i].amount);
      assert lines[i..][1..] == lines[i + 1..];
    }
  }

  /** `Sum` is the source's `reduce((sum, line) => sum + line.amount, 0)`. */
  lemma SumIsReduce(lines: seq<LineItem>)
    ensures Sum(lines) == Reduce(lines, 0, 0)
  {
    ReduceFrom(lines, 0, 0);
    assert lines[0..] == lines;
  }

  /** Changing the amount of one line changes the sum by the same amount. */
  lemma {:induction false} SumUpdate(lines: seq<LineItem>, i: nat, amount: int)
    requires i < |lines|
    ensures Sum(lines[i := lines[i].(amount := amount)]) == Sum(lines) - lines[i].amount + amount
  {
    if i == 0 {
      assert lines[i := lines[i].(amount := amount)][1..] == lines[1..];
    } else {
      SumUpdate(lines[1..], i - 1, amount);
      assert lines[i := lines[i].(amount := amount)][1..] == lines[1..][i - 1 := lines[i].(amount := amount)];
    }
  }

  /** Position `k` holds the largest amount, and no earlier line holds as much. */
  ghost predicate FirstLargest(lines: seq<LineItem>, k: int)
  {
    && 0 <= k < |lines|
    && (forall j :: 0 <= j < |lines| ==> lines[j].amount <= lines[k].amount)
    && (forall j :: 0 <= j < k ==> lines[j].amount < lines[k].amount)
  }

  /**
   * The left-to-right search of the source: starting from position 0, a line
   * replaces the current best only when its amount is strictly greater.
   */
  function LargestFrom(lines: seq<LineItem>, idx: nat, best: nat): (k: nat)
    requires idx <= |lines| && best < |lines| && best <= idx
    requires forall j :: 0 <= j < idx ==> lines[j].amount <= lines[best].amount
    requires forall j :: 0 <= j < best ==> lines[j].amount < lines[best].amount
    ensures FirstLargest(lines, k)
    decreases |lines| - idx
  {
    if idx == |lines| then best
    else if lines[idx].amount > lines[best].amount then LargestFrom(lines, idx + 1, idx)
    else LargestFrom(lines, idx + 1, best)
  }

  function LargestLineIndex(lines: seq<LineItem>): (k: nat)
    requires |lines| > 0
    ensures FirstLargest(lines, k)
  {
    LargestFrom(lines, 0, 0)
  }

  /** There is only one first largest line. */
  lemma FirstLargestUnique(lines: seq<LineItem>, k1: int, k2: int)
    requires FirstLargest(lines, k1) && FirstLargest(lines, k2)
    ensures k1 == k2
  {
    assert lines[k2].amount <= lines[k1].amount && lines[k1].amount <= lines[k2].amount;
  }

  /**
   * The probable cause of a large difference. The VAT test comes first: the
   * lines plus 21% reach the total within 0.10. Otherwise the sign of the
   * difference decides.
   */
  function Diagnose(sum: int, total: int): (h: Hypothesis)
    ensures h == VatExclusiveLines <==> Abs((100 + FLAT_VAT_PERCENT) * sum - 100 * total) < VAT_TOLERANCE
    ensures h == MissingLines <==> Abs((100 + FLAT_VAT_PERCENT) * sum - 100 * total) >= VAT_TOLERANCE && total > sum
    ensures h == DiscountApplied <==> Abs((100 + FLAT_VAT_PERCENT) * sum - 100 * total) >= VAT_TOLERANCE && total <= sum
  {
    if Abs((100 + FLAT_VAT_PERCENT) * sum - 100 * total) < VAT_TOLERANCE then VatExclusiveLines
    else if total - sum > 0 then MissingLines
    else DiscountApplied
  }

  /** The source reads the first line of an empty document in the FIX branch and fails. */
  predicate Healable(doc: Document)
  {
    |doc.lines| > 0 || Abs(doc.totalAmount) == 0 || Abs(doc.totalAmount) > ROUNDING_TOLERANCE
  }

  /**
   * Validates the lines of `doc` against its total. Exactly one audit entry,
   * stamped `now`, is produced; the total is carried through unchanged.
   */
  function ValidateAndHeal(doc: Document, now: int): (r: ValidationResult)
    requires Healable(doc)
    ensures |r.log| == 1 && r.log[0].timestamp == now
    ensures r.adjustedTotal == doc.totalAmount
    ensures |r.healedLines| == |doc.lines|
    ensures r.isValid <==> Abs(doc.totalAmount - Sum(doc.lines)) <= ROUNDING_TOLERANCE
    ensures r.isValid ==> Sum(r.healedLines) == doc.totalAmount
    ensures !r.isValid ==> r.healedLines == doc.lines
    ensures r.log[0].kind == Success <==> doc.totalAmount == Sum(doc.lines)
    ensures r.log[0].kind == Success ==> r.healedLines == doc.lines && r.log[0] == AuditEntry(now, Success, ValidationPassed, NoDetails)
    ensures r.log[0].kind == Fix <==> 0 < Abs(doc.totalAmount - Sum(doc.lines)) <= ROUNDING_TOLERANCE
    ensures r.log[0].kind == Fix ==> r.log[0].message == RoundingDifference(doc.totalAmount - Sum(doc.lines))
    ensures r.log[0].kind == Warning <==> Abs(doc.totalAmount - Sum(doc.lines)) > ROUNDING_TOLERANCE
    ensures r.log[0].kind == Warning ==>
      r.log[0].message == LargeDifference(doc.totalAmount - Sum(doc.lines))
      && r.log[0].details == Failure(Diagnose(Sum(doc.lines), doc.totalAmount))
  {
    var sum := Sum(doc.lines);
    var diff := doc.totalAmount - sum;
    if Abs(diff) == 0 then
      ValidationResult(doc.lines, [AuditEntry(now, Success, ValidationPassed, NoDetails)], true, doc.totalAmount)
    else if Abs(diff) <= ROUNDING_TOLERANCE then
      var k := LargestLineIndex(doc.lines);
      var oldAmount := doc.lines[k].amount;
      var newAmount := oldAmount + diff;
      var healed := doc.lines[k := doc.lines[k].(amount := newAmount)];
      SumUpdate(doc.lines, k, newAmount);
      ValidationResult(
        healed,
        [AuditEntry(now, Fix, RoundingDifference(diff), Correction(k + 1, oldAmount, newAmount))],
        true,
        doc.totalAmount)
    else
      ValidationResult(
        doc.lines,
        [AuditEntry(now, Warning, LargeDifference(diff), Failure(Diagnose(sum, doc.totalAmount)))],
        false,
        doc.totalAmount)
  }

  /**
   * In the FIX branch only the first largest line changes, and only in its
   * amount, by exactly the difference; the entry names its 1-based position
   * and both amounts.
   */
  lemma FixTouchesOnlyLargestLine(doc: Document, now: int, k: int)
    requires 0 < Abs(doc.totalAmount - Sum(doc.lines)) <= ROUNDING_TOLERANCE
    requires FirstLargest(doc.lines, k)
    ensures var r := ValidateAndHeal(doc, now);
      var diff := doc.totalAmount - Sum(doc.lines);
      && r.healedLines[k] == doc.lines[k].(amount := doc.lines[k].amount + diff)
      && (forall j :: 0 <= j < |doc.lines| && j != k ==> r.healedLines[j] == doc.lines[j])
      && r.log[0].details == Correction(k + 1, doc.lines[k].amount, doc.lines[k].amount + diff)
  {
    FirstLargestUnique(doc.lines, k, LargestLineIndex(doc.lines));
  }

  /** A document that validated without a warning validates again as SUCCESS, unchanged. */
  lemma RevalidationSucceeds(doc: Document, now: int, later: int)
    requires Healable(doc) && ValidateAndHeal(doc, now).isValid
    ensures var healed := doc.(lines := ValidateAndHeal(doc, now).healedLines);
      var r := ValidateAndHeal(healed, later);
      r.log[0].kind == Success && r.healedLines == healed.lines
  {
  }
}
