/**
 * How the review screen (components/DetailCockpit.tsx) uses the engine: it
 * flags cost-spreading lines when a document is opened, applies a validation
 * result by replacing the lines and appending the log, and shows a balance
 * badge.
 */
module Cockpit {

  import opened Types
  import opened Reconciler
  import opened Spreading

  /**
   * The balance badge: the difference between total and lines, rounded to
   * cents, is below one cent, which in cents means the lines sum exactly to
   * the total.
   */
  function IsBalanced(doc: Document): (b: bool)
    ensures b <==> doc.totalAmount == Sum(doc.lines)
  {
    Abs(doc.totalAmount - Sum(doc.lines)) < 1
  }

  /** Applies a validation result: the healed lines replace the lines, the log is appended. */
  function ApplyValidation(doc: Document, result: ValidationResult): (d: Document)
    ensures d.lines == result.healedLines
    ensures |d.auditLog| == |doc.auditLog| + |result.log|
    ensures d.auditLog[..|doc.auditLog|] == doc.auditLog && d.auditLog[|doc.auditLog|..] == result.log
    ensures d.totalAmount == doc.totalAmount && d.id == doc.id && d.status == doc.status
    ensures d.(lines := doc.lines, auditLog := doc.auditLog) == doc
  {
    doc.(lines := result.healedLines, auditLog := doc.auditLog + result.log)
  }

  /** One press of the validate button, at time `now`. */
  function RunValidation(doc: Document, now: int): (d: Document)
    requires Healable(doc)
    ensures IsBalanced(d) <==> ValidateAndHeal(doc, now).isValid
    ensures IsBalanced(d) <==> Abs(doc.totalAmount - Sum(doc.lines)) <= ROUNDING_TOLERANCE
    ensures doc.auditLog < d.auditLog && |d.auditLog| == |doc.auditLog| + 1
    ensures d.auditLog[|doc.auditLog|].timestamp == now
    ensures Healable(d)
  {
    ApplyValidation(doc, ValidateAndHeal(doc, now))
  }

  /**
   * Repeated validation, one run per timestamp: the audit log only grows,
   * keeping every earlier entry in place, by one entry per run.
   */
  function RunValidations(doc: Document, times: seq<int>): (d: Document)
    requires Healable(doc)
    ensures doc.auditLog <= d.auditLog
    ensures |d.auditLog| == |doc.auditLog| + |times|
    ensures forall i :: 0 <= i < |times| ==> d.auditLog[|doc.auditLog| + i].timestamp == times[i]
    ensures d.totalAmount == doc.totalAmount
    decreases |times|
  {
    if |times| == 0 then doc
    else
      var first := RunValidation(doc, times[0]);
      var rest := RunValidations(first, times[1..]);
      assert forall i :: 1 <= i < |times| ==> rest.auditLog[|doc.auditLog| + i].timestamp == times[i] by {
        forall i | 1 <= i < |times|
          ensures rest.auditLog[|doc.auditLog| + i].timestamp == times[i]
        {
          assert times[1..][i - 1] == times[i];
        }
      }
      assert rest.auditLog[|doc.auditLog|] == first.auditLog[|doc.auditLog|];
      rest
  }

  /** After a run that did not end in a warning the badge shows balanced. */
  lemma BalancedAfterValidRun(doc: Document, now: int)
    requires Healable(doc)
    requires ValidateAndHeal(doc, now).log[0].kind in {Success, Fix}
    ensures IsBalanced(RunValidation(doc, now))
  {
  }

  /** Flags each line as a cost-spreading candidate from its description. */
  function FlagCostSpreading(lines: seq<LineItem>): (r: seq<LineItem>)
    ensures |r| == |lines|
    ensures forall i :: 0 <= i < |lines| ==>
      r[i].isSpread == Some(DetectCostSpreading(lines[i].description))
      && r[i].(isSpread := lines[i].isSpread) == lines[i]
  {
    seq(|lines|, i requires 0 <= i < |lines| => lines[i].(isSpread := Some(DetectCostSpreading(lines[i].description))))
  }

  /** Flagging only touches the spread flag, so the sum of the lines is unchanged. */
  lemma {:induction false} FlaggingKeepsSum(lines: seq<LineItem>)
    ensures Sum(FlagCostSpreading(lines)) == Sum(lines)
  {
    if |lines| > 0 {
      FlaggingKeepsSum(lines[1..]);
      assert FlagCostSpreading(lines)[1..] == FlagCostSpreading(lines[1..]);
    }
  }

  /** Opening a document does not change its balance. */
  lemma FlaggingKeepsBalance(doc: Document)
    ensures IsBalanced(doc.(lines := FlagCostSpreading(doc.lines))) <==> IsBalanced(doc)
  {
    FlaggingKeepsSum(doc.lines);
  }
}
