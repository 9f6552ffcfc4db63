/**
 * fundAirdrop: one amount guard, the amount conversion, then one
 * fund_airdrop message with no arguments whose value is the converted amount.
 */
module FundAirdropScript {
  import opened Wrappers
  import opened Numbers
  import opened Cells
  import opened Utils

  /** The message fundAirdrop(amount) sends, or why it stops first. */
  function FundAirdrop(amount: Amount): Outcome {
    if !ValidateAmount(amount) then Rejected(InvalidAmount)
    else
      match ConvertAmount(amount)
      case None => Fault
      case Some(nano) =>
        match MessageBody("fund_airdrop", [])
        case None => Fault
        case Some(body) => Submit(body, nano)
  }

  /** Only an amount that is not finite and strictly positive is refused with INVALID_AMOUNT. */
  lemma FundAirdropGuard(amount: Amount)
    ensures FundAirdrop(amount) == Rejected(InvalidAmount) <==> !ValidateAmount(amount)
    ensures FundAirdrop(amount).Rejected? <==> !ValidateAmount(amount)
  {
  }

  /**
   * Past the guard the body is the header-only fund_airdrop cell whatever the
   * amount, and the amount reaches the message only as its value, in nanotons
   * and strictly positive; an amount the conversion refuses throws.
   */
  lemma FundAirdropSubmits(amount: Amount)
    requires ValidateAmount(amount)
    ensures FundAirdrop(amount) ==
      match ConvertAmount(amount)
      case None => Fault
      case Some(nano) => Submit(Cell(Header("fund_airdrop")), nano)
    ensures FundAirdrop(amount).Submit? ==> FundAirdrop(amount).value > 0
  {
    HeaderOnlyBody("fund_airdrop", []);
  }

  /** As written, the string k funds k * 10^9 nanotons, but the number k funds k nanotons. */
  lemma FundAirdropNumericUnscaled(k: int)
    requires k > 0
    ensures FundAirdrop(Text(Of(k))) == Submit(Cell(Header("fund_airdrop")), k * NanoPerTon)
    ensures FundAirdrop(Num(Of(k))) == Submit(Cell(Header("fund_airdrop")), k)
  {
    ConvertAmountScalesOnlyText(k);
    FundAirdropSubmits(Text(Of(k)));
    FundAirdropSubmits(Num(Of(k)));
  }

  /**
   * The usage example `fundAirdrop.ts 10.5` hands parseFloat's number 10.5 to
   * the script: it passes the guard, then BigInt refuses the fraction and the
   * script throws outside the error codes.
   */
  lemma FundAirdropCliFraction()
    ensures ValidateAmount(Num(Finite(10.5)))
    ensures FundAirdrop(Num(Finite(10.5))) == Fault
  {
    FractionalNumberDoesNotConvert(10.5);
  }

  /** The evidently intended fundAirdrop: the amount is a number of TON in either form, converted by toNano. */
  function FundAirdropInTon(amount: Amount): Outcome {
    FundAirdrop(Text(ParseAmount(amount)))
  }

  /**
   * The intended version refuses exactly what fundAirdrop refuses, sends
   * amount * 10^9 nanotons whichever form the amount came in, and funds the
   * usage example's 10.5 TON with 10.5 * 10^9 nanotons.
   */
  lemma FundAirdropInTonScales(amount: Amount)
    ensures FundAirdropInTon(amount).Rejected? <==> FundAirdrop(amount).Rejected?
    ensures FundAirdropInTon(amount).Rejected? ==> FundAirdropInTon(amount) == FundAirdrop(amount)
    ensures FundAirdropInTon(amount).Submit? ==>
      ParseAmount(amount).Finite? &&
      FundAirdropInTon(amount).value as real == ParseAmount(amount).x * NanoPerTon as real
    ensures FundAirdropInTon(Num(Finite(10.5))) == Submit(Cell(Header("fund_airdrop")), 10_500_000_000)
  {
    var text := Text(ParseAmount(amount));
    assert ValidateAmount(text) == ValidateAmount(amount);
    if ValidateAmount(amount) {
      FundAirdropSubmits(text);
    }
    var ten := Text(Finite(10.5));
    assert ToNano(10.5) == Some(10_500_000_000);
    FundAirdropSubmits(ten);
  }
}
