/**
 * closeRoom: the same two guards as enterPaid, then one close_room message
 * carrying room id and day, sent with the 0.1 TON gas fee.
 */
module CloseRoomScript {
  import opened Wrappers
  import opened Numbers
  import opened Cells
  import opened Utils
  import opened EnterPaidScript

  /** The message closeRoom(roomId, day) sends, or why it stops first. */
  function CloseRoom(roomId: Number, day: Number): Outcome {
    if !ValidateRoomId(roomId) then Rejected(InvalidRoomId)
    else if !ValidateDay(day) then Rejected(InvalidDay)
    else
      match MessageBody("close_room", [FromNumber(roomId), FromNumber(day)])
      case None => Fault
      case Some(body) => Submit(body, GasFee)
  }

  /** The room id is checked before the day, and a rejection names the first guard that fails. */
  lemma CloseRoomGuards(roomId: Number, day: Number)
    ensures CloseRoom(roomId, day) == Rejected(InvalidRoomId) <==> !ValidateRoomId(roomId)
    ensures CloseRoom(roomId, day) == Rejected(InvalidDay) <==> ValidateRoomId(roomId) && !ValidateDay(day)
    ensures CloseRoom(roomId, day).Rejected? <==> !(ValidateRoomId(roomId) && ValidateDay(day))
  {
  }

  /** Past the guards: the close_room body with room id and day, sent with 0.1 TON; a too-wide room id throws. */
  lemma CloseRoomSubmits(roomId: Number, day: Number)
    requires ValidateRoomId(roomId) && ValidateDay(day)
    ensures CloseRoom(roomId, day) ==
      if ToInt(roomId) < Pow2(256)
      then Submit(Cell(Header("close_room") + [Uint(ToInt(roomId), 256), Uint(ToInt(day), 32)]), GasFee)
      else Fault
  {
    ValidDayExactly(day);
    assert FromNumber(roomId) == Int(ToInt(roomId));
    assert FromNumber(day) == Int(ToInt(day));
    RoomDayBody("close_room", ToInt(roomId), ToInt(day));
  }

  /**
   * closeRoom and enterPaid agree on every input up to the method name and the
   * value: the same rejections, submission on the same inputs, and bodies that
   * differ only in the name field.
   */
  lemma CloseRoomMirrorsEnterPaid(roomId: Number, day: Number)
    ensures CloseRoom(roomId, day).Rejected? ==> CloseRoom(roomId, day) == EnterPaid(roomId, day)
    ensures EnterPaid(roomId, day).Rejected? ==> CloseRoom(roomId, day) == EnterPaid(roomId, day)
    ensures CloseRoom(roomId, day).Submit? <==> EnterPaid(roomId, day).Submit?
    ensures CloseRoom(roomId, day).Submit? ==>
      var c, e := CloseRoom(roomId, day).body.fields, EnterPaid(roomId, day).body.fields;
      && |c| == |e| == 4
      && c[0] == e[0]
      && c[1] == Str("close_room") && e[1] == Str("enter_paid")
      && c[2..] == e[2..]
      && CloseRoom(roomId, day).value == GasFee && EnterPaid(roomId, day).value == OneTon
  {
    if ValidateRoomId(roomId) && ValidateDay(day) {
      CloseRoomSubmits(roomId, day);
      EnterPaidSubmits(roomId, day);
    }
  }
}
