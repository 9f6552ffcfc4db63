/**
 * payoutPaid: room id and day guards, a winners-count range guard, the mock
 * winners list and the linear weights with their sum check, then one
 * payout_paid message carrying only room id and day, sent with 0.1 TON.
 */
module PayoutPaidScript {
  import opened Wrappers
  import opened Numbers
  import opened Cells
  import opened Utils

  /**
   * The message payoutPaid(roomId, day, winnersCount) sends, or why it stops
   * first; parses stands for Address.parse on the mock winner addresses.
   */
  function PayoutPaid(roomId: Number, day: Number, winnersCount: Number, parses: string -> bool): Outcome {
    if !ValidateRoomId(roomId) then Rejected(InvalidRoomId)
    else if !ValidateDay(day) then Rejected(InvalidDay)
    else if AtMost(winnersCount, 0.0) || Greater(winnersCount, 100.0) then Rejected(InvalidWinnersCount)
    else
      match WinnersArray(winnersCount, parses)
      case None => Fault
      case Some(_) =>
        if !ValidateLinearWeights(LinearWeights(winnersCount)) then Rejected(InvalidWeights)
        else
          match MessageBody("payout_paid", [FromNumber(roomId), FromNumber(day)])
          case None => Fault
          case Some(body) => Submit(body, GasFee)
  }

  /** The room id, the day and the winners count are checked in that order. */
  lemma PayoutPaidGuards(roomId: Number, day: Number, winnersCount: Number, parses: string -> bool)
    ensures PayoutPaid(roomId, day, winnersCount, parses) == Rejected(InvalidRoomId) <==> !ValidateRoomId(roomId)
    ensures PayoutPaid(roomId, day, winnersCount, parses) == Rejected(InvalidDay) <==>
      ValidateRoomId(roomId) && !ValidateDay(day)
    ensures PayoutPaid(roomId, day, winnersCount, parses) == Rejected(InvalidWinnersCount) <==>
      ValidateRoomId(roomId) && ValidateDay(day) && (AtMost(winnersCount, 0.0) || Greater(winnersCount, 100.0))
  {
  }

  /** A whole winners count n is refused exactly when it is not in 1..100. */
  lemma PayoutPaidCountRange(roomId: Number, day: Number, n: int, parses: string -> bool)
    requires ValidateRoomId(roomId) && ValidateDay(day)
    ensures PayoutPaid(roomId, day, Of(n), parses) == Rejected(InvalidWinnersCount) <==> n <= 0 || n > 100
  {
  }

  /**
   * For a whole count in 1..100 the weights check always passes: the script
   * throws if Address.parse refuses one of the count's mock addresses, and
   * otherwise sends the payout_paid body holding room id and day and nothing
   * else (or throws on a too-wide room id). The weights error is never raised
   * and the count leaves no trace in the message.
   */
  lemma PayoutPaidWholeCount(roomId: Number, day: Number, n: int, parses: string -> bool)
    requires ValidateRoomId(roomId) && ValidateDay(day) && 1 <= n <= 100
    ensures PayoutPaid(roomId, day, Of(n), parses) ==
      if !(forall i :: 0 <= i < n ==> parses(WinnerText(i))) then Fault
      else if ToInt(roomId) < Pow2(256)
      then Submit(Cell(Header("payout_paid") + [Uint(ToInt(roomId), 256), Uint(ToInt(day), 32)]), GasFee)
      else Fault
  {
    assert Iterations(n as real) == n;
    if forall i :: 0 <= i < n ==> parses(WinnerText(i)) {
      assert WinnersArray(Of(n), parses).Some?;
      GeneratedWeightsValid(n);
      PayoutPaidBody(roomId, day);
    } else {
      assert WinnersArray(Of(n), parses) == None;
    }
  }

  /** The payout_paid body of a valid room id and day. */
  lemma PayoutPaidBody(roomId: Number, day: Number)
    requires ValidateRoomId(roomId) && ValidateDay(day)
    ensures MessageBody("payout_paid", [FromNumber(roomId), FromNumber(day)]) ==
      if ToInt(roomId) < Pow2(256)
      then Some(Cell(Header("payout_paid") + [Uint(ToInt(roomId), 256), Uint(ToInt(day), 32)]))
      else None
  {
    ValidDayExactly(day);
    assert FromNumber(roomId) == Int(ToInt(roomId));
    assert FromNumber(day) == Int(ToInt(day));
    RoomDayBody("payout_paid", ToInt(roomId), ToInt(day));
  }

  /** Whatever the count and the parser, a submitted payout carries 0.1 TON and reads back as room id and day only. */
  lemma PayoutPaidIgnoresCount(roomId: Number, day: Number, winnersCount: Number, parses: string -> bool)
    requires PayoutPaid(roomId, day, winnersCount, parses).Submit?
    ensures PayoutPaid(roomId, day, winnersCount, parses).value == GasFee
    ensures PayoutPaid(roomId, day, winnersCount, parses).body ==
      MessageBody("payout_paid", [FromNumber(roomId), FromNumber(day)]).value
    ensures DecodeBody(PayoutPaid(roomId, day, winnersCount, parses).body) ==
      Some(Call("payout_paid", [FromNumber(roomId), FromNumber(day)]))
  {
    var params := [FromNumber(roomId), FromNumber(day)];
    DecodeMessageBody("payout_paid", params);
    assert params[..2] == params;
  }

  /**
   * The weights error is reachable only through a fractional count: 2.5
   * passes the range guard and builds three mock addresses; if Address.parse
   * accepts them, the weights [2.5, 1.5, 0.5] sum to 4.5 rather than 6 and
   * the count is refused with INVALID_WEIGHTS, and otherwise the script throws
   * before the weights are checked.
   */
  lemma PayoutPaidFractionalCount(roomId: Number, day: Number, parses: string -> bool)
    requires ValidateRoomId(roomId) && ValidateDay(day)
    ensures PayoutPaid(roomId, day, Finite(2.5), parses) ==
      if parses(WinnerText(0)) && parses(WinnerText(1)) && parses(WinnerText(2))
      then Rejected(InvalidWeights)
      else Fault
  {
    assert Iterations(2.5) == 3;
    if parses(WinnerText(0)) && parses(WinnerText(1)) && parses(WinnerText(2)) {
      assert forall i :: 0 <= i < 3 ==> parses(WinnerText(i)) by {
        forall i | 0 <= i < 3 ensures parses(WinnerText(i)) {
          assert i == 0 || i == 1 || i == 2;
        }
      }
      assert WinnersArray(Finite(2.5), parses).Some?;
      FractionalCountFailsWeights();
    } else {
      assert WinnersArray(Finite(2.5), parses) == None;
    }
  }

  /**
   * With a parser that refuses the first mock address, every finite count the
   * range guard lets through throws in createWinnersArray: only a NaN count,
   * which builds no address, can reach the send.
   */
  lemma PayoutPaidFirstTextRefused(roomId: Number, day: Number, winnersCount: Number, parses: string -> bool)
    requires ValidateRoomId(roomId) && ValidateDay(day) && !parses(WinnerText(0))
    ensures winnersCount.Finite? && 0.0 < winnersCount.x <= 100.0 ==>
      PayoutPaid(roomId, day, winnersCount, parses) == Fault
    ensures PayoutPaid(roomId, day, winnersCount, parses).Submit? ==> winnersCount.NaN?
  {
    if winnersCount.Finite? && 0.0 < winnersCount.x {
      IterationsBelow(winnersCount.x, 0);
      assert WinnersArray(winnersCount, parses) == None;
    }
  }

  /**
   * As written, NaN passes the range guard (both comparisons are false), the
   * winners and weights lists come out empty, the empty weights pass their
   * check, and the payout is sent.
   */
  lemma PayoutPaidAcceptsNaN(roomId: Number, day: Number, parses: string -> bool)
    requires ValidateRoomId(roomId) && ValidateDay(day) && ToInt(roomId) < Pow2(256)
    ensures PayoutPaid(roomId, day, NaN, parses) ==
      Submit(Cell(Header("payout_paid") + [Uint(ToInt(roomId), 256), Uint(ToInt(day), 32)]), GasFee)
  {
    assert WinnersArray(NaN, parses).Some?;
    assert LinearWeights(NaN) == [];
    PayoutPaidBody(roomId, day);
  }

  /** The evidently intended payoutPaid: a winners count that is not a whole number is refused with the count error. */
  function PayoutPaidChecked(roomId: Number, day: Number, winnersCount: Number, parses: string -> bool): Outcome {
    if ValidateRoomId(roomId) && ValidateDay(day) && !IsInteger(winnersCount) then Rejected(InvalidWinnersCount)
    else PayoutPaid(roomId, day, winnersCount, parses)
  }

  /**
   * The checked version sends a payout only for a whole count in 1..100, never
   * raises the weights error, and agrees with payoutPaid on every whole count.
   */
  lemma PayoutPaidCheckedSound(roomId: Number, day: Number, winnersCount: Number, parses: string -> bool)
    ensures PayoutPaidChecked(roomId, day, winnersCount, parses).Submit? ==>
      IsInteger(winnersCount) && 1 <= ToInt(winnersCount) <= 100
    ensures PayoutPaidChecked(roomId, day, winnersCount, parses) != Rejected(InvalidWeights)
    ensures IsInteger(winnersCount) ==>
      PayoutPaidChecked(roomId, day, winnersCount, parses) == PayoutPaid(roomId, day, winnersCount, parses)
  {
    if ValidateRoomId(roomId) && ValidateDay(day) && IsInteger(winnersCount) {
      var n := ToInt(winnersCount);
      if 1 <= n <= 100 {
        assert winnersCount == Of(n);
        PayoutPaidWholeCount(roomId, day, n, parses);
      }
    }
  }
}
