/**
 * openRoom: four guards (room id, day, entry fee, tier), the entry-fee
 * conversion, then one open_room message worth the 0.1 TON gas fee.
 */
module OpenRoomScript {
  import opened Wrappers
  import opened Numbers
  import opened Cells
  import opened Utils

  /** The message openRoom(roomId, day, entryFee, tier) sends, or why it stops first. */
  function OpenRoom(roomId: Number, day: Number, entryFee: Amount, tier: Number): Outcome {
    if !ValidateRoomId(roomId) then Rejected(InvalidRoomId)
    else if !ValidateDay(day) then Rejected(InvalidDay)
    else if !ValidateAmount(entryFee) then Rejected(InvalidEntryFee)
    else if !ValidateTier(tier) then Rejected(InvalidTier)
    else
      match ConvertAmount(entryFee)
      case None => Fault
      case Some(fee) =>
        match MessageBody("open_room", [FromNumber(roomId), FromNumber(day), Int(fee), FromNumber(tier)])
        case None => Fault
        case Some(body) => Submit(body, GasFee)
  }

  /** The guards run in order, and the first one that fails decides the error code. */
  lemma OpenRoomGuards(roomId: Number, day: Number, entryFee: Amount, tier: Number)
    ensures OpenRoom(roomId, day, entryFee, tier) == Rejected(InvalidRoomId) <==> !ValidateRoomId(roomId)
    ensures OpenRoom(roomId, day, entryFee, tier) == Rejected(InvalidDay) <==>
      ValidateRoomId(roomId) && !ValidateDay(day)
    ensures OpenRoom(roomId, day, entryFee, tier) == Rejected(InvalidEntryFee) <==>
      ValidateRoomId(roomId) && ValidateDay(day) && !ValidateAmount(entryFee)
    ensures OpenRoom(roomId, day, entryFee, tier) == Rejected(InvalidTier) <==>
      ValidateRoomId(roomId) && ValidateDay(day) && ValidateAmount(entryFee) && !ValidateTier(tier)
    ensures OpenRoom(roomId, day, entryFee, tier).Rejected? <==>
      !(ValidateRoomId(roomId) && ValidateDay(day) && ValidateAmount(entryFee) && ValidateTier(tier))
  {
  }

  /**
   * Past the guards: the open_room body with room id, day, converted fee and
   * tier in that order, sent with 0.1 TON; a fee the conversion refuses, or a
   * room id or fee too wide for its field, throws instead.
   */
  lemma OpenRoomSubmits(roomId: Number, day: Number, entryFee: Amount, tier: Number)
    requires ValidateRoomId(roomId) && ValidateDay(day) && ValidateAmount(entryFee) && ValidateTier(tier)
    ensures ConvertAmount(entryFee).Some? ==> ConvertAmount(entryFee).value > 0
    ensures OpenRoom(roomId, day, entryFee, tier) ==
      match ConvertAmount(entryFee)
      case None => Fault
      case Some(fee) =>
        if ToInt(roomId) < Pow2(256) && fee < Pow2(CoinsBits)
        then Submit(Cell(Header("open_room") +
                         [Uint(ToInt(roomId), 256), Uint(ToInt(day), 32), Coins(fee), Uint(ToInt(tier), 32)]),
                    GasFee)
        else Fault
  {
    ValidDayExactly(day);
    ValidTierExactly(tier);
    assert FromNumber(roomId) == Int(ToInt(roomId));
    assert FromNumber(day) == Int(ToInt(day));
    assert FromNumber(tier) == Int(ToInt(tier));
    match ConvertAmount(entryFee)
    case None =>
    case Some(fee) =>
      var room, d, t := ToInt(roomId), ToInt(day), ToInt(tier);
      if room < Pow2(256) && fee < Pow2(CoinsBits) {
        OpenRoomBody(room, d, fee, t);
      } else {
        OpenRoomBodyOverflow(room, d, fee, t);
      }
  }

  /** A submitted body reads back as open_room with exactly the four arguments createMessageBody was given. */
  lemma OpenRoomBodyDecodes(roomId: Number, day: Number, entryFee: Amount, tier: Number)
    requires OpenRoom(roomId, day, entryFee, tier).Submit?
    ensures ConvertAmount(entryFee).Some?
    ensures DecodeBody(OpenRoom(roomId, day, entryFee, tier).body) ==
      Some(Call("open_room", [FromNumber(roomId), FromNumber(day), Int(ConvertAmount(entryFee).value), FromNumber(tier)]))
  {
    var params := [FromNumber(roomId), FromNumber(day), Int(ConvertAmount(entryFee).value), FromNumber(tier)];
    DecodeMessageBody("open_room", params);
    assert params[..4] == params;
  }

  /**
   * The usage example `openRoom.ts 12345 20241201 1.0 1`: called with the
   * string "1.0" the fee field holds 10^9 nanotons, but the command line hands
   * over parseFloat's number 1, and the fee field then holds 1 nanoton.
   */
  lemma OpenRoomExample()
    ensures OpenRoom(Of(12345), Of(20241201), Text(Of(1)), Of(1)) ==
      Submit(Cell(Header("open_room") + [Uint(12345, 256), Uint(20241201, 32), Coins(1_000_000_000), Uint(1, 32)]),
             GasFee)
    ensures OpenRoom(Of(12345), Of(20241201), Num(Of(1)), Of(1)) ==
      Submit(Cell(Header("open_room") + [Uint(12345, 256), Uint(20241201, 32), Coins(1), Uint(1, 32)]),
             GasFee)
  {
    Pow2Widths();
    ConvertAmountScalesOnlyText(1);
    OpenRoomSubmits(Of(12345), Of(20241201), Text(Of(1)), Of(1));
    OpenRoomSubmits(Of(12345), Of(20241201), Num(Of(1)), Of(1));
  }

  /** Boundary cases of the guards: room 0, a day one past the range, tier 4. */
  lemma OpenRoomRejections()
    ensures OpenRoom(Of(0), Of(20241201), Text(Of(1)), Of(1)) == Rejected(InvalidRoomId)
    ensures OpenRoom(Of(-1), Of(20241201), Text(Of(1)), Of(1)) == Rejected(InvalidRoomId)
    ensures OpenRoom(Of(12345), Of(20300001), Text(Of(1)), Of(1)) == Rejected(InvalidDay)
    ensures OpenRoom(Of(12345), Of(20241201), Text(Of(0)), Of(1)) == Rejected(InvalidEntryFee)
    ensures OpenRoom(Of(12345), Of(20241201), Text(Of(1)), Of(4)) == Rejected(InvalidTier)
  {
  }

  /** validateRoomId has no upper bound: the room id 2^256 passes it and then the 256-bit store throws. */
  lemma OpenRoomRoomIdTooWide()
    ensures ValidateRoomId(Of(Pow2(256)))
    ensures OpenRoom(Of(Pow2(256)), Of(20241201), Text(Of(1)), Of(1)) == Fault
  {
    ConvertAmountScalesOnlyText(1);
    OpenRoomSubmits(Of(Pow2(256)), Of(20241201), Text(Of(1)), Of(1));
  }

  /** Integer room, day and tier within their ranges and a fee that converts to fee nanotons: that fee is field 4. */
  lemma OpenRoomStoresFee(room: int, day: int, tier: int, entryFee: Amount, fee: int)
    requires 0 < room < Pow2(256) && 20240000 <= day <= 20300000 && 1 <= tier <= 3
    requires ValidateAmount(entryFee) && ConvertAmount(entryFee) == Some(fee) && fee < Pow2(CoinsBits)
    ensures OpenRoom(Of(room), Of(day), entryFee, Of(tier)).Submit?
    ensures OpenRoom(Of(room), Of(day), entryFee, Of(tier)).body.fields[4] == Coins(fee)
  {
    WholeInputsValid(room, day, tier);
    OpenRoomSubmits(Of(room), Of(day), entryFee, Of(tier));
  }

  /** Whole room, day and tier within their ranges pass their guards and are read back unchanged. */
  lemma WholeInputsValid(room: int, day: int, tier: int)
    requires 0 < room && 20240000 <= day <= 20300000 && 1 <= tier <= 3
    ensures ValidateRoomId(Of(room)) && ValidateDay(Of(day)) && ValidateTier(Of(tier))
    ensures ToInt(Of(room)) == room && ToInt(Of(day)) == day && ToInt(Of(tier)) == tier
  {
    assert Of(tier) in [Of(1), Of(2), Of(3)];
  }

  /**
   * As written, a numeric fee of k goes through BigInt and is stored as k
   * nanotons, while the string form of the same k is stored as k * 10^9.
   */
  lemma OpenRoomNumericFeeUnscaled(room: int, day: int, tier: int, k: int)
    requires 0 < room < Pow2(256) && 20240000 <= day <= 20300000 && 1 <= tier <= 3
    requires 0 < k && k * NanoPerTon < Pow2(CoinsBits)
    ensures OpenRoom(Of(room), Of(day), Num(Of(k)), Of(tier)).Submit?
    ensures OpenRoom(Of(room), Of(day), Num(Of(k)), Of(tier)).body.fields[4] == Coins(k)
    ensures OpenRoom(Of(room), Of(day), Text(Of(k)), Of(tier)).Submit?
    ensures OpenRoom(Of(room), Of(day), Text(Of(k)), Of(tier)).body.fields[4] == Coins(k * NanoPerTon)
  {
    ConvertAmountScalesOnlyText(k);
    OpenRoomStoresFee(room, day, tier, Num(Of(k)), k);
    OpenRoomStoresFee(room, day, tier, Text(Of(k)), k * NanoPerTon);
  }

  /** The evidently intended openRoom: the entry fee is a number of TON in either form, converted by toNano. */
  function OpenRoomInTon(roomId: Number, day: Number, entryFee: Amount, tier: Number): Outcome {
    OpenRoom(roomId, day, Text(ParseAmount(entryFee)), tier)
  }

  /**
   * The intended version guards exactly as openRoom does, and the fee it
   * stores is the entry fee times 10^9 whichever form the fee came in.
   */
  lemma OpenRoomInTonScales(roomId: Number, day: Number, entryFee: Amount, tier: Number)
    ensures OpenRoomInTon(roomId, day, entryFee, tier).Rejected? <==> OpenRoom(roomId, day, entryFee, tier).Rejected?
    ensures OpenRoomInTon(roomId, day, entryFee, tier).Rejected? ==>
      OpenRoomInTon(roomId, day, entryFee, tier) == OpenRoom(roomId, day, entryFee, tier)
    ensures OpenRoomInTon(roomId, day, entryFee, tier).Submit? ==>
      var f := OpenRoomInTon(roomId, day, entryFee, tier).body.fields[4];
      ParseAmount(entryFee).Finite? && f.Coins? && f.v as real == ParseAmount(entryFee).x * NanoPerTon as real
  {
    var text := Text(ParseAmount(entryFee));
    assert ValidateAmount(text) == ValidateAmount(entryFee);
    if OpenRoomInTon(roomId, day, entryFee, tier).Submit? {
      OpenRoomSubmits(roomId, day, text, tier);
    }
  }
}
