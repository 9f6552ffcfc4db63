/**
 * payoutAirdrop: range guards on the top and the streak winners counts, the
 * two mock winners lists, then one payout_airdrop message with no arguments,
 * sent with the 0.1 TON gas fee.
 */
module PayoutAirdropScript {
  import opened Wrappers
  import opened Numbers
  import opened Cells
  import opened Utils

  /** The JavaScript test `count < 0 || count > 1000` both guards use. */
  predicate OutOfRange(count: Number) {
    Less(count, 0.0) || Greater(count, 1000.0)
  }

  /**
   * The message payoutAirdrop(topWinnersCount, streakWinnersCount) sends, or
   * why it stops first; parses stands for Address.parse on the mock addresses.
   */
  function PayoutAirdrop(topWinnersCount: Number, streakWinnersCount: Number, parses: string -> bool): Outcome {
    if OutOfRange(topWinnersCount) then Rejected(InvalidTopCount)
    else if OutOfRange(streakWinnersCount) then Rejected(InvalidStreakCount)
    else
      match WinnersArray(topWinnersCount, parses)
      case None => Fault
      case Some(_) =>
        match WinnersArray(streakWinnersCount, parses)
        case None => Fault
        case Some(_) =>
          match MessageBody("payout_airdrop", [])
          case None => Fault
          case Some(body) => Submit(body, GasFee)
  }

  /** The top count is checked first; the streak count only once the top count has passed. */
  lemma PayoutAirdropGuards(top: Number, streak: Number, parses: string -> bool)
    ensures PayoutAirdrop(top, streak, parses) == Rejected(InvalidTopCount) <==> OutOfRange(top)
    ensures PayoutAirdrop(top, streak, parses) == Rejected(InvalidStreakCount) <==>
      !OutOfRange(top) && OutOfRange(streak)
    ensures PayoutAirdrop(top, streak, parses).Rejected? <==> OutOfRange(top) || OutOfRange(streak)
  {
  }

  /** For whole counts the accepted range is 0..1000 with both ends included. */
  lemma PayoutAirdropRange(n: int)
    ensures OutOfRange(Of(n)) <==> n < 0 || n > 1000
    ensures !OutOfRange(Of(0)) && !OutOfRange(Of(1000)) && OutOfRange(Of(-1)) && OutOfRange(Of(1001))
  {
  }

  /**
   * Past the guards the message is the header-only payout_airdrop body with
   * 0.1 TON, the same for every pair of counts; it is sent exactly when every
   * mock address of both lists parses.
   */
  lemma PayoutAirdropSubmits(top: Number, streak: Number, parses: string -> bool)
    requires !OutOfRange(top) && !OutOfRange(streak)
    ensures PayoutAirdrop(top, streak, parses) ==
      if WinnersArray(top, parses).Some? && WinnersArray(streak, parses).Some?
      then Submit(Cell(Header("payout_airdrop")), GasFee)
      else Fault
  {
    HeaderOnlyBody("payout_airdrop", []);
  }

  /**
   * With a parser that refuses every 49-character text (a user-friendly
   * address has 48), a top count above 100 that passes the guard still
   * throws: the 101st mock address, with its three-digit index, is 49
   * characters long.
   */
  lemma PayoutAirdropLongAddresses(top: int, streak: Number, parses: string -> bool)
    requires 100 < top <= 1000 && !OutOfRange(streak)
    requires forall s :: |s| == 49 ==> !parses(s)
    ensures PayoutAirdrop(Of(top), streak, parses) == Fault
  {
    NoLongWinnersArray(top, parses);
  }

  /** Under such a parser no winners list longer than 100 can be built. */
  lemma NoLongWinnersArray(count: int, parses: string -> bool)
    requires 100 < count
    requires forall s :: |s| == 49 ==> !parses(s)
    ensures WinnersArray(Of(count), parses) == None
  {
    WinnerTextLength(100);
    assert Iterations(count as real) == count;
    assert !parses(WinnerText(100));
  }

  /**
   * With a parser that refuses the first mock address, a payout is sent only
   * when both counts build no address at all (zero or NaN); every positive
   * count throws.
   */
  lemma PayoutAirdropFirstTextRefused(top: Number, streak: Number, parses: string -> bool)
    requires !OutOfRange(top) && !OutOfRange(streak) && !parses(WinnerText(0))
    ensures PayoutAirdrop(top, streak, parses) ==
      if (top.Finite? && top.x > 0.0) || (streak.Finite? && streak.x > 0.0) then Fault
      else Submit(Cell(Header("payout_airdrop")), GasFee)
  {
    PayoutAirdropSubmits(top, streak, parses);
    if top.Finite? {
      IterationsBelow(top.x, 0);
    }
    if streak.Finite? {
      IterationsBelow(streak.x, 0);
    }
  }

  /** NaN passes both guards (every comparison with it is false), and its winners list is empty. */
  lemma PayoutAirdropAcceptsNaN(parses: string -> bool)
    ensures PayoutAirdrop(NaN, NaN, parses) == Submit(Cell(Header("payout_airdrop")), GasFee)
  {
    assert WinnersArray(NaN, parses).Some?;
    PayoutAirdropSubmits(NaN, NaN, parses);
  }
}
