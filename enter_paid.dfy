/**
 * enterPaid: two guards (room id, then day), then one enter_paid message
 * carrying room id and day, sent with the one-TON entry fee.
 */
module EnterPaidScript {
  import opened Wrappers
  import opened Numbers
  import opened Cells
  import opened Utils

  /** The message enterPaid(roomId, day) sends, or why it stops first. */
  function EnterPaid(roomId: Number, day: Number): Outcome {
    if !ValidateRoomId(roomId) then Rejected(InvalidRoomId)
    else if !ValidateDay(day) then Rejected(InvalidDay)
    else
      match MessageBody("enter_paid", [FromNumber(roomId), FromNumber(day)])
      case None => Fault
      case Some(body) => Submit(body, OneTon)
  }

  /** The room id is checked before the day, and a rejection names the first guard that fails. */
  lemma EnterPaidGuards(roomId: Number, day: Number)
    ensures EnterPaid(roomId, day) == Rejected(InvalidRoomId) <==> !ValidateRoomId(roomId)
    ensures EnterPaid(roomId, day) == Rejected(InvalidDay) <==> ValidateRoomId(roomId) && !ValidateDay(day)
    ensures EnterPaid(roomId, day).Rejected? <==> !(ValidateRoomId(roomId) && ValidateDay(day))
  {
  }

  /**
   * Past the guards: the enter_paid body with the room id in 256 bits and the
   * day in 32, sent with one TON; a room id too wide for its field throws.
   */
  lemma EnterPaidSubmits(roomId: Number, day: Number)
    requires ValidateRoomId(roomId) && ValidateDay(day)
    ensures EnterPaid(roomId, day) ==
      if ToInt(roomId) < Pow2(256)
      then Submit(Cell(Header("enter_paid") + [Uint(ToInt(roomId), 256), Uint(ToInt(day), 32)]), OneTon)
      else Fault
  {
    ValidDayExactly(day);
    assert FromNumber(roomId) == Int(ToInt(roomId));
    assert FromNumber(day) == Int(ToInt(day));
    RoomDayBody("enter_paid", ToInt(roomId), ToInt(day));
  }

  /** Whatever room and day, a submitted enterPaid attaches exactly 10^9 nanotons and reads back as its two arguments. */
  lemma EnterPaidValueAndBody(roomId: Number, day: Number)
    requires EnterPaid(roomId, day).Submit?
    ensures EnterPaid(roomId, day).value == 1_000_000_000
    ensures DecodeBody(EnterPaid(roomId, day).body) == Some(Call("enter_paid", [FromNumber(roomId), FromNumber(day)]))
  {
    var params := [FromNumber(roomId), FromNumber(day)];
    DecodeMessageBody("enter_paid", params);
    assert params[..2] == params;
  }

  /** Boundary cases: room 0 is refused before a bad day is looked at; the last day of the range is accepted. */
  lemma EnterPaidExamples()
    ensures EnterPaid(Of(0), Of(20300001)) == Rejected(InvalidRoomId)
    ensures EnterPaid(Of(12345), Of(20300001)) == Rejected(InvalidDay)
    ensures EnterPaid(Of(12345), Of(20300000)) ==
      Submit(Cell(Header("enter_paid") + [Uint(12345, 256), Uint(20300000, 32)]), OneTon)
  {
    Pow2Widths();
    EnterPaidSubmits(Of(12345), Of(20300000));
  }
}
