/**
 * upgrade: one code-path guard, the mock code cell, then one upgrade message
 * referencing that cell, sent with the 0.1 TON gas fee.
 */
module UpgradeScript {
  import opened Wrappers
  import opened Cells
  import opened Utils

  /** The stand-in for the compiled contract: a cell holding one string tail. */
  const MockCode := Cell([Str("New Treasury Contract Code")])

  /**
   * The message upgrade(newCodePath) sends, or why it stops first. The path is
   * only checked to be non-empty; it is never read.
   */
  function Upgrade(newCodePath: string): Outcome {
    if newCodePath == "" then Rejected(InvalidCodePath)
    else
      match MessageBody("upgrade", [CellValue(MockCode)])
      case None => Fault
      case Some(body) => Submit(body, GasFee)
  }

  /**
   * The empty path is the only one refused; every other path yields the same
   * message: the upgrade header and exactly one reference, to the mock code
   * cell, sent with 0.1 TON.
   */
  lemma UpgradeOutcome(newCodePath: string)
    ensures Upgrade(newCodePath) == Rejected(InvalidCodePath) <==> newCodePath == ""
    ensures newCodePath != "" ==>
      Upgrade(newCodePath) == Submit(Cell(Header("upgrade") + [Ref(MockCode)]), GasFee)
  {
    UpgradeBody(MockCode, []);
    assert [CellValue(MockCode)] + [] == [CellValue(MockCode)];
  }

  /** Two non-empty paths give the identical message, and the body reads back as a call with the code cell. */
  lemma UpgradeIgnoresPath(p: string, q: string)
    requires p != "" && q != ""
    ensures Upgrade(p) == Upgrade(q)
    ensures Upgrade(p).Submit? && Upgrade(p).body.fields[2] == Ref(MockCode)
    ensures DecodeBody(Upgrade(p).body) == Some(Call("upgrade", [CellValue(MockCode)]))
    ensures WellFormed(Upgrade(p).body)
  {
    UpgradeOutcome(p);
    UpgradeOutcome(q);
    DecodeMessageBody("upgrade", [CellValue(MockCode)]);
    assert [CellValue(MockCode)][..1] == [CellValue(MockCode)];
    assert WellFormed(MockCode);
    MessageBodyWellFormed("upgrade", [CellValue(MockCode)]);
  }
}
