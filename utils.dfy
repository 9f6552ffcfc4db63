/**
 * The shared helpers of the Treasury scripts: the input validators, the
 * room key, the linear payout weights, the message-body encoder and the
 * error taxonomy.
 */
module Utils {
  import opened Wrappers
  import opened Numbers
  import opened Cells

  // ----------------------------------------------------------------------
  // Errors and outcomes

  /** The TreasuryError kinds the scripts raise, one per failing guard. */
  datatype ErrorCode =
    | InvalidRoomId | InvalidDay | InvalidAmount | InvalidEntryFee | InvalidTier
    | InvalidTopCount | InvalidStreakCount | InvalidWinnersCount | InvalidWeights
    | InvalidCodePath

  /**
   * What one run of a script does: hand one message (its body, and its value
   * in nanotons) to the sender, stop with a TreasuryError before anything is
   * built, or fail with some other exception (a RangeError from BigInt, a
   * value the cell builder refuses).
   */
  datatype Outcome = Submit(body: Cell, value: nat) | Rejected(error: ErrorCode) | Fault

  const NanoPerTon: nat := 1_000_000_000
  /** toNano('0.1'), the gas value most scripts attach. */
  const GasFee: nat := 100_000_000
  /** toNano('1'), the value enterPaid attaches. */
  const OneTon: nat := 1_000_000_000

  // ----------------------------------------------------------------------
  // Validators

  /** An amount argument: a number, or a string given by what parseFloat makes of it. */
  datatype Amount = Num(n: Number) | Text(parsed: Number)

  function ParseAmount(a: Amount): Number {
    match a
    case Num(n) => n
    case Text(p) => p
  }

  predicate ValidateAmount(a: Amount) {
    Greater(ParseAmount(a), 0.0) && IsFinite(ParseAmount(a))
  }

  predicate ValidateRoomId(roomId: Number) {
    IsInteger(roomId) && Greater(roomId, 0.0)
  }

  predicate ValidateDay(day: Number) {
    IsInteger(day) && AtLeast(day, 20240000.0) && AtMost(day, 20300000.0)
  }

  predicate ValidateTier(tier: Number) {
    tier in [Of(1), Of(2), Of(3)]
  }

  lemma ValidAmountExactly(a: Amount)
    ensures ValidateAmount(a) <==> exists x: real :: x > 0.0 && ParseAmount(a) == Finite(x)
  {
    if ValidateAmount(a) {
      assert ParseAmount(a) == Finite(ParseAmount(a).x);
    }
  }

  lemma ValidRoomIdExactly(roomId: Number)
    ensures ValidateRoomId(roomId) <==> exists k: int :: k > 0 && roomId == Of(k)
  {
    if ValidateRoomId(roomId) {
      assert roomId == Of(ToInt(roomId));
    }
  }

  /** A valid day is an integer in [20240000, 20300000], so it fits its 32-bit field. */
  lemma ValidDayExactly(day: Number)
    ensures ValidateDay(day) <==> exists k: int :: 20240000 <= k <= 20300000 && day == Of(k)
    ensures ValidateDay(day) ==> 0 <= ToInt(day) < Pow2(32)
  {
    Pow2Widths();
    if ValidateDay(day) {
      assert day == Of(ToInt(day));
    }
  }

  /** A valid tier is 1, 2 or 3, so it fits its 32-bit field. */
  lemma ValidTierExactly(tier: Number)
    ensures ValidateTier(tier) <==> exists k: int :: 1 <= k <= 3 && tier == Of(k)
    ensures ValidateTier(tier) ==> IsInteger(tier) && 0 <= ToInt(tier) < Pow2(32)
  {
    if ValidateTier(tier) {
      Pow2Widths();
      var k := if tier == Of(1) then 1 else if tier == Of(2) then 2 else 3;
      assert tier == Of(k);
    }
  }

  // ----------------------------------------------------------------------
  // Amount conversion

  /**
   * toNano on a decimal string: exact scaling by 10^9; the SDK throws on more
   * than nine decimals. The nanotons, read back as tons, are the amount.
   */
  function ToNano(x: real): (r: Option<int>)
    ensures r.Some? ==> r.value as real / NanoPerTon as real == x
  {
    var v := x * NanoPerTon as real;
    if v.Floor as real == v then Some(v.Floor) else None
  }

  /** Every whole number of nanotons is reached: k / 10^9 tons converts to exactly k. */
  lemma ToNanoReaches(k: int)
    ensures ToNano(k as real / NanoPerTon as real) == Some(k)
  {
    var v := (k as real / NanoPerTon as real) * NanoPerTon as real;
    assert v == k as real;
  }

  /** `typeof a === 'string' ? toNano(a) : BigInt(a)`: only the string form is scaled to nanotons. */
  function ConvertAmount(a: Amount): (r: Option<int>)
    ensures r.Some? ==> (r.value > 0 <==> Greater(ParseAmount(a), 0.0))
  {
    match a
    case Text(Finite(x)) => ToNano(x)
    case Text(_) => None
    case Num(n) => if IsInteger(n) then Some(ToInt(n)) else None
  }

  /** The same whole number of tons converts to k * 10^9 as a string but to k as a number. */
  lemma ConvertAmountScalesOnlyText(k: int)
    ensures ConvertAmount(Text(Of(k))) == Some(k * NanoPerTon)
    ensures ConvertAmount(Num(Of(k))) == Some(k)
  {
    var v := (k as real) * (NanoPerTon as real);
    assert v == (k * NanoPerTon) as real;
    assert v.Floor == k * NanoPerTon;
  }

  /** BigInt refuses a fractional number: such an amount never converts. */
  lemma FractionalNumberDoesNotConvert(x: real)
    requires x.Floor as real != x
    ensures ConvertAmount(Num(Finite(x))) == None
  {
  }

  /** A JavaScript number handed to the builder: an integer converts, anything else throws as a missing argument does. */
  function FromNumber(n: Number): (v: Value)
    ensures v.Int? || v.Undefined?
    ensures forall k: int :: v == Int(k) <==> n == Of(k)
  {
    if IsInteger(n) then Int(ToInt(n)) else Undefined
  }

  // ----------------------------------------------------------------------
  // Room key

  /** BigInt(roomId) + BigInt(day); BigInt throws unless both are integers. */
  function CreateRoomKey(roomId: Number, day: Number): (key: Option<int>)
    ensures key.Some? <==> IsInteger(roomId) && IsInteger(day)
    ensures forall r: int, d: int :: roomId == Of(r) && day == Of(d) ==> key == Some(r + d)
  {
    if IsInteger(roomId) && IsInteger(day) then Some(ToInt(roomId) + ToInt(day)) else None
  }

  /** The key is a plain sum, so every valid room and day after the first collides with the next room and the day before. */
  lemma RoomKeyCollides(room: int, day: int)
    requires ValidateRoomId(Of(room)) && ValidateDay(Of(day)) && day > 20240000
    ensures ValidateRoomId(Of(room + 1)) && ValidateDay(Of(day - 1))
    ensures (room, day) != (room + 1, day - 1)
    ensures CreateRoomKey(Of(room), Of(day)) == CreateRoomKey(Of(room + 1), Of(day - 1))
  {
  }

  // ----------------------------------------------------------------------
  // Linear weights

  /** How often `for (let i = 0; i < x; i++)` runs: the number of naturals below x. */
  function Iterations(x: real): nat {
    if x <= 0.0 then 0 else -((-x).Floor)
  }

  lemma IterationsBelow(x: real, i: nat)
    ensures i < Iterations(x) <==> (i as real) < x
  {
  }

  /** The weights createLinearWeights(count) pushes: count - i for every natural i below count. */
  function LinearWeights(count: Number): seq<real>
    requires !count.PosInf?
  {
    if count.Finite? then seq(Iterations(count.x), i requires 0 <= i => count.x - i as real) else []
  }

  /** createLinearWeights: the loop that pushes count - i while i < count (which never ends for +Infinity). */
  method CreateLinearWeights(count: Number) returns (weights: seq<real>)
    requires !count.PosInf?
    ensures weights == LinearWeights(count)
  {
    weights := [];
    var i: nat := 0;
    while Greater(count, i as real)
      invariant !count.Finite? ==> i == 0
      invariant count.Finite? ==> i <= Iterations(count.x)
      invariant |weights| == i
      invariant count.Finite? ==> forall k :: 0 <= k < i ==> weights[k] == count.x - k as real
      decreases if count.Finite? then Iterations(count.x) - i else 0
    {
      IterationsBelow(count.x, i);
      weights := weights + [count.x - i as real];
      i := i + 1;
    }
    if count.Finite? {
      IterationsBelow(count.x, i);
    }
  }

  /** The intended ranking weights [n, n-1, ..., 1], defined independently of the loop. */
  function Descending(n: nat): (w: seq<real>)
    ensures |w| == n
    ensures forall i :: 0 <= i < n ==> w[i] == (n - i) as real
  {
    if n == 0 then [] else [n as real] + Descending(n - 1)
  }

  /** For a whole count n the loop yields [n, ..., 1]: strictly decreasing, first n, last 1. */
  lemma LinearWeightsOfCount(n: nat)
    ensures LinearWeights(Of(n)) == Descending(n)
    ensures forall i, j :: 0 <= i < j < n ==> LinearWeights(Of(n))[i] > LinearWeights(Of(n))[j]
    ensures n > 0 ==> LinearWeights(Of(n))[0] == n as real && LinearWeights(Of(n))[n - 1] == 1.0
  {
    assert Iterations(n as real) == n;
  }

  // ----------------------------------------------------------------------
  // Winners array

  /** The fixed part of every mock winner address; the index follows it. */
  const MockWinnerPrefix: string := "EQD4FPq-PRDieyQKkizFTRtSDyucUIqrj0v_zXJmqaDp6_"

  function DigitChar(d: nat): char
    requires d < 10
  {
    "0123456789"[d]
  }

  /** i.toString(): the decimal digits of i, most significant first. */
  function DecimalText(i: nat): string {
    if i < 10 then [DigitChar(i)] else DecimalText(i / 10) + [DigitChar(i % 10)]
  }

  /** i.toString() has one digit below 10, two below 100, and three or more from 100 on. */
  lemma {:induction false} DecimalTextLength(i: nat)
    ensures |DecimalText(i)| >= 1
    ensures |DecimalText(i)| >= 2 <==> i >= 10
    ensures |DecimalText(i)| >= 3 <==> i >= 100
    ensures |DecimalText(i)| >= 4 <==> i >= 1000
  {
    if i >= 10 {
      DecimalTextLength(i / 10);
    }
  }

  /** s.padStart(2, '0'): zeros in front up to two characters; a longer text is kept whole. */
  function PadStart2(s: string): string {
    if |s| >= 2 then s else seq(2 - |s|, _ => '0') + s
  }

  /** The padded text ends with the original and is at least two characters long. */
  lemma PadStart2Pads(s: string)
    ensures |PadStart2(s)| == if |s| >= 2 then |s| else 2
    ensures PadStart2(s)[|PadStart2(s)| - |s|..] == s
  {
  }

  /** The text createWinnersArray hands to Address.parse for winner i. */
  function WinnerText(i: nat): string {
    MockWinnerPrefix + PadStart2(DecimalText(i))
  }

  /**
   * A user-friendly address is 48 characters long; the mock text has that
   * length for the first hundred winners only, and one more character from
   * the hundred-and-first on.
   */
  lemma WinnerTextLength(i: nat)
    ensures |WinnerText(i)| == 48 <==> i < 100
    ensures i >= 100 ==> |WinnerText(i)| > 48
    ensures 100 <= i < 1000 ==> |WinnerText(i)| == 49
  {
    DecimalTextLength(i);
    PadStart2Pads(DecimalText(i));
    assert |MockWinnerPrefix| == 46;
  }

  /**
   * The addresses createWinnersArray(count) returns, one per natural below
   * count, or None where Address.parse throws on one of them. The parser is
   * not part of this model: parses says which texts it accepts.
   */
  function WinnersArray(count: Number, parses: string -> bool): Option<seq<Address>>
    requires !count.PosInf?
  {
    var n := if count.Finite? then Iterations(count.x) else 0;
    if forall i :: 0 <= i < n ==> parses(WinnerText(i))
    then Some(MockAddresses(n))
    else None
  }

  /** The mock addresses of the first n winners, in order. */
  function MockAddresses(n: nat): (a: seq<Address>)
    ensures |a| == n
  {
    if n == 0 then [] else MockAddresses(n - 1) + [Address(WinnerText(n - 1))]
  }

  /** One more winner appends one more address. */
  lemma MockAddressesNext(i: nat)
    ensures MockAddresses(i + 1) == MockAddresses(i) + [Address(WinnerText(i))]
  {
  }

  /** Entry k of the list is the address parsed from winner k's text. */
  lemma {:induction false} MockAddressesAt(n: nat, k: nat)
    requires k < n
    ensures MockAddresses(n)[k] == Address(WinnerText(k))
  {
    if k < n - 1 {
      MockAddressesAt(n - 1, k);
    }
  }

  /** createWinnersArray: the loop that parses and pushes one mock address per index below count. */
  method CreateWinnersArray(count: Number, parses: string -> bool) returns (r: Option<seq<Address>>)
    requires !count.PosInf?
    ensures r == WinnersArray(count, parses)
  {
    ghost var n := if count.Finite? then Iterations(count.x) else 0;
    var addresses: seq<Address> := [];
    var i: nat := 0;
    while Greater(count, i as real)
      invariant i <= n
      invariant addresses == MockAddresses(i)
      invariant AllParse(parses, i)
      decreases n - i
    {
      LoopGuard(count, i);
      var text := WinnerText(i);
      if !parses(text) {
        // Address.parse throws
        AllParseStops(parses, i, n);
        return None;
      }
      MockAddressesNext(i);
      AllParseNext(parses, i);
      addresses := addresses + [Address(text)];
      i := i + 1;
    }
    LoopGuard(count, i);
    AllParseEvery(parses, i);
    r := Some(addresses);
  }

  /** Address.parse accepts the texts of the first n winners. */
  predicate AllParse(parses: string -> bool, n: nat) {
    n == 0 || (AllParse(parses, n - 1) && parses(WinnerText(n - 1)))
  }

  /** One more accepted text extends the run of accepted ones. */
  lemma AllParseNext(parses: string -> bool, i: nat)
    ensures AllParse(parses, i + 1) <==> AllParse(parses, i) && parses(WinnerText(i))
  {
  }

  /** The recursive form says the same as the quantified one WinnersArray uses. */
  lemma {:induction false} AllParseEvery(parses: string -> bool, n: nat)
    ensures AllParse(parses, n) <==> forall k :: 0 <= k < n ==> parses(WinnerText(k))
  {
    if n > 0 {
      AllParseEvery(parses, n - 1);
    }
  }

  /** One text the parser refuses, below n, stops the list of n. */
  lemma AllParseStops(parses: string -> bool, i: nat, n: nat)
    requires i < n && !parses(WinnerText(i))
    ensures !(forall k :: 0 <= k < n ==> parses(WinnerText(k)))
  {
  }

  /** The test `i < count` of both loops holds for exactly the naturals below the iteration count. */
  lemma LoopGuard(count: Number, i: nat)
    requires !count.PosInf?
    ensures Greater(count, i as real) <==> i < (if count.Finite? then Iterations(count.x) else 0)
  {
    if count.Finite? {
      IterationsBelow(count.x, i);
    }
  }

  /** weights.reduce((sum, w) => sum + w, 0), a left fold. */
  function Sum(w: seq<real>): real {
    if w == [] then 0.0 else Sum(w[..|w| - 1]) + w[|w| - 1]
  }

  lemma {:induction false} SumConcat(a: seq<real>, b: seq<real>)
    ensures Sum(a + b) == Sum(a) + Sum(b)
  {
    if b == [] {
      assert a + b == a;
    } else {
      assert (a + b)[..|a + b| - 1] == a + b[..|b| - 1];
      SumConcat(a, b[..|b| - 1]);
    }
  }

  lemma {:induction false} SumDescending(n: nat)
    ensures Sum(Descending(n)) == (n as real) * (n as real + 1.0) / 2.0
  {
    if n > 0 {
      assert Descending(n) == [n as real] + Descending(n - 1);
      SumDescending(n - 1);
      SumConcat([n as real], Descending(n - 1));
      assert Sum([n as real]) == n as real by {
        assert [n as real][..0] == [];
      }
    }
  }

  /** The sum of a sequence depends only on its elements, not their order. */
  lemma {:induction false} SumPermutation(a: seq<real>, b: seq<real>)
    requires multiset(a) == multiset(b)
    ensures Sum(a) == Sum(b)
    decreases |a|
  {
    if a == [] {
      assert |b| == |multiset(b)| == 0;
    } else {
      var x := a[|a| - 1];
      assert x in multiset(b);
      var k :| 0 <= k < |b| && b[k] == x;
      var rest := b[..k] + b[k + 1..];
      assert b == b[..k] + [x] + b[k + 1..];
      assert a == a[..|a| - 1] + [x];
      calc {
        multiset(a[..|a| - 1]) + multiset{x};
        multiset(a);
        multiset(b);
        multiset(b[..k]) + multiset{x} + multiset(b[k + 1..]);
        multiset(rest) + multiset{x};
      }
      assert multiset(a[..|a| - 1]) == multiset(a[..|a| - 1]) + multiset{x} - multiset{x};
      assert multiset(rest) == multiset(rest) + multiset{x} - multiset{x};
      SumPermutation(a[..|a| - 1], rest);
      SumConcat(b[..k] + [x], b[k + 1..]);
      SumConcat(b[..k], [x]);
      SumConcat(b[..k], b[k + 1..]);
      assert Sum([x]) == x by {
        assert [x][..0] == [];
      }
    }
  }

  /** validateLinearWeights: the sum of the weights is |w| * (|w| + 1) / 2 and nothing else is checked. */
  predicate ValidateLinearWeights(w: seq<real>) {
    Sum(w) == (|w| as real) * (|w| as real + 1.0) / 2.0
  }

  /** Every output of createLinearWeights for a whole count passes the check, and its total is n(n+1)/2. */
  lemma GeneratedWeightsValid(n: nat)
    ensures Sum(LinearWeights(Of(n))) == (n as real) * (n as real + 1.0) / 2.0
    ensures ValidateLinearWeights(LinearWeights(Of(n)))
  {
    LinearWeightsOfCount(n);
    SumDescending(n);
  }

  /** Every ordering of [n, ..., 1] passes the check. */
  lemma ValidateAcceptsPermutations(w: seq<real>, n: nat)
    requires multiset(w) == multiset(Descending(n))
    ensures ValidateLinearWeights(w)
  {
    assert |w| == n by {
      assert |multiset(w)| == |multiset(Descending(n))|;
    }
    SumPermutation(w, Descending(n));
    ValidatesBySum(w, n);
  }

  /** Weights of length n whose sum is that of [n, ..., 1] pass the check. */
  lemma ValidatesBySum(w: seq<real>, n: nat)
    requires |w| == n && Sum(w) == Sum(Descending(n))
    ensures ValidateLinearWeights(w)
  {
    SumDescending(n);
  }

  /** The check is weaker than "a permutation of [n, ..., 1]": [2, 2, 2] passes, and so does []. */
  lemma ValidateChecksOnlySum()
    ensures ValidateLinearWeights([2.0, 2.0, 2.0])
    ensures multiset([2.0, 2.0, 2.0]) != multiset(Descending(3))
    ensures ValidateLinearWeights([])
  {
    var w := [2.0, 2.0, 2.0];
    assert w[..2] == [2.0, 2.0] && w[..2][..1] == [2.0] && w[..2][..1][..0] == [];
    assert Sum(w[..2][..1]) == 2.0;
    assert Sum(w[..2]) == 4.0;
    assert Sum(w) == 6.0;
    assert 3.0 in multiset(Descending(3));
  }

  /** A fractional count slips past a guard of the form 0 < n <= 100 and then fails the sum check. */
  lemma FractionalCountFailsWeights()
    ensures LinearWeights(Finite(2.5)) == [2.5, 1.5, 0.5]
    ensures !ValidateLinearWeights(LinearWeights(Finite(2.5)))
  {
    assert Iterations(2.5) == 3;
    var w := [2.5, 1.5, 0.5];
    assert LinearWeights(Finite(2.5)) == w;
    assert w[..2] == [2.5, 1.5] && w[..2][..1] == [2.5] && w[..2][..1][..0] == [];
    assert Sum(w[..2][..1]) == 2.5;
    assert Sum(w[..2]) == 4.0;
    assert Sum(w) == 4.5;
  }

  // ----------------------------------------------------------------------
  // Message bodies

  /** The kinds of field the switch in createMessageBody writes after the header. */
  datatype Slot = UintSlot(bits: nat) | CoinsSlot | RefSlot

  /**
   * The fields each method name gets after the header. The switch has no
   * default: payout_airdrop and every name it does not list get none.
   */
  function Layout(name: string): seq<Slot> {
    if name == "open_room" then [UintSlot(256), UintSlot(32), CoinsSlot, UintSlot(32)]
    else if name == "enter_paid" then [UintSlot(256), UintSlot(32)]
    else if name == "close_room" then [UintSlot(256), UintSlot(32)]
    else if name == "payout_paid" then [UintSlot(256), UintSlot(32)]
    else if name == "payout_airdrop" then []
    else if name == "upgrade" then [RefSlot]
    else []
  }

  /** params[k], which is undefined past the end of the array. */
  function Arg(params: seq<Value>, k: nat): Value {
    if k < |params| then params[k] else Undefined
  }

  function Store(slot: Slot, v: Value): Option<Field> {
    match slot
    case UintSlot(bits) => UintField(v, bits)
    case CoinsSlot => CoinsField(v)
    case RefSlot => RefField(v)
  }

  /** The 32-bit zero op-code of a text comment, then the method name. */
  function Header(name: string): seq<Field> {
    [Uint(0, 32), Str(name)]
  }

  /** The fields the first k slots of a layout write, or None once a store throws. */
  function Encode(slots: seq<Slot>, params: seq<Value>, k: nat): (r: Option<seq<Field>>)
    requires k <= |slots|
    ensures r.Some? ==> |r.value| == k
  {
    if k == 0 then Some([])
    else match Encode(slots, params, k - 1)
      case None => None
      case Some(fs) =>
        match Store(slots[k - 1], Arg(params, k - 1))
        case None => None
        case Some(f) => Some(fs + [f])
  }

  /** The builder accepts every parameter the layout stores. */
  predicate Fits(slots: seq<Slot>, params: seq<Value>) {
    forall j :: 0 <= j < |slots| ==> Store(slots[j], Arg(params, j)).Some?
  }

  /** Encoding succeeds exactly when every store does, and then field j is what store j writes. */
  lemma {:induction false} EncodeFields(slots: seq<Slot>, params: seq<Value>, k: nat)
    requires k <= |slots|
    ensures Encode(slots, params, k).Some? <==> forall j :: 0 <= j < k ==> Store(slots[j], Arg(params, j)).Some?
    ensures Encode(slots, params, k).Some? ==>
      |Encode(slots, params, k).value| == k &&
      forall j :: 0 <= j < k ==> Store(slots[j], Arg(params, j)) == Some(Encode(slots, params, k).value[j])
  {
    if k > 0 {
      EncodeFields(slots, params, k - 1);
    }
  }

  /**
   * The cell createMessageBody(name, params) ends with, or None where the
   * builder throws on a parameter (missing, not an integer, too wide).
   */
  function MessageBody(name: string, params: seq<Value>): (r: Option<Cell>)
    ensures r.Some? ==> |r.value.fields| == 2 + |Layout(name)| && r.value.fields[..2] == Header(name)
  {
    match Encode(Layout(name), params, |Layout(name)|)
    case None => None
    case Some(fs) => Some(Cell(Header(name) + fs))
  }

  /** The builder completes the body exactly when every parameter the layout stores fits. */
  lemma MessageBodyFits(name: string, params: seq<Value>)
    ensures MessageBody(name, params).Some? <==> Fits(Layout(name), params)
  {
    EncodeFields(Layout(name), params, |Layout(name)|);
  }

  /**
   * The builder after the header and the first k stores of a layout: ok
   * says whether every one of them succeeded, and then the fields are what
   * they wrote.
   */
  ghost predicate Built(fields: seq<Field>, ok: bool, name: string, slots: seq<Slot>, params: seq<Value>, k: nat) {
    && k <= |slots|
    && (ok <==> forall j :: 0 <= j < k ==> Store(slots[j], Arg(params, j)).Some?)
    && (ok ==> |fields| == 2 + k && fields[..2] == Header(name) &&
               forall j :: 0 <= j < k ==> Store(slots[j], Arg(params, j)) == Some(fields[2 + j]))
  }

  /** Store k runs only while no earlier store has thrown, and then appends what slot k writes. */
  lemma BuiltNext(before: seq<Field>, ok: bool, after: seq<Field>, ok': bool,
                  name: string, slots: seq<Slot>, params: seq<Value>, k: nat)
    requires Built(before, ok, name, slots, params, k) && k < |slots|
    requires ok' == (ok && Store(slots[k], Arg(params, k)).Some?)
    requires ok' ==> after == before + [Store(slots[k], Arg(params, k)).value]
    ensures Built(after, ok', name, slots, params, k + 1)
  {
  }

  /** A builder that has run the whole layout of the name holds exactly the message body. */
  lemma BuiltBody(fields: seq<Field>, ok: bool, name: string, params: seq<Value>)
    requires Built(fields, ok, name, Layout(name), params, |Layout(name)|)
    ensures MessageBody(name, params) == if ok then Some(Cell(fields)) else None
  {
    var slots := Layout(name);
    EncodeFields(slots, params, |slots|);
    if ok {
      assert fields == Header(name) + Encode(slots, params, |slots|).value;
    }
  }

  /** The stores of the open_room case: room id (256 bits), day (32 bits), entry fee (coins), tier (32 bits). */
  method StoreOpenRoom(cell: Builder, ghost name: string, params: seq<Value>) returns (ok: bool)
    requires Layout(name) == [UintSlot(256), UintSlot(32), CoinsSlot, UintSlot(32)]
    requires cell.Valid() && Built(cell.fields, true, name, Layout(name), params, 0)
    modifies cell
    ensures cell.Valid() && Built(cell.fields, ok, name, Layout(name), params, 4)
  {
    var slots := Layout(name);
    var before := cell.fields;
    ok := cell.StoreUint(Arg(params, 0), 256);
    BuiltNext(before, true, cell.fields, ok, name, slots, params, 0);
    var wasOk := ok;
    before := cell.fields;
    if ok { ok := cell.StoreUint(Arg(params, 1), 32); }
    BuiltNext(before, wasOk, cell.fields, ok, name, slots, params, 1);
    before, wasOk := cell.fields, ok;
    if ok { ok := cell.StoreCoins(Arg(params, 2)); }
    BuiltNext(before, wasOk, cell.fields, ok, name, slots, params, 2);
    before, wasOk := cell.fields, ok;
    if ok { ok := cell.StoreUint(Arg(params, 3), 32); }
    BuiltNext(before, wasOk, cell.fields, ok, name, slots, params, 3);
  }

  /** The stores of the enter_paid, close_room and payout_paid cases: room id (256 bits), then day (32 bits). */
  method StoreRoomAndDay(cell: Builder, ghost name: string, params: seq<Value>) returns (ok: bool)
    requires Layout(name) == [UintSlot(256), UintSlot(32)]
    requires cell.Valid() && Built(cell.fields, true, name, Layout(name), params, 0)
    modifies cell
    ensures cell.Valid() && Built(cell.fields, ok, name, Layout(name), params, 2)
  {
    var slots := Layout(name);
    var before := cell.fields;
    ok := cell.StoreUint(Arg(params, 0), 256);
    BuiltNext(before, true, cell.fields, ok, name, slots, params, 0);
    var wasOk := ok;
    before := cell.fields;
    if ok { ok := cell.StoreUint(Arg(params, 1), 32); }
    BuiltNext(before, wasOk, cell.fields, ok, name, slots, params, 1);
  }

  /**
   * createMessageBody: the header, then a switch on the method name that
   * stores the parameters one by one. A store the builder rejects throws,
   * so ok records whether the call is still running.
   */
  method CreateMessageBody(name: string, params: seq<Value>) returns (r: Option<Cell>)
    ensures r == MessageBody(name, params)
  {
    var cell := new Builder();
    var ok := cell.StoreUint(Int(0), 32);
    cell.StoreStringTail(name);
    assert Built(cell.fields, ok, name, Layout(name), params, 0);
    if name == "open_room" {
      ok := StoreOpenRoom(cell, name, params);
    } else if name == "enter_paid" || name == "close_room" || name == "payout_paid" {
      ok := StoreRoomAndDay(cell, name, params);
    } else if name == "upgrade" {
      var before := cell.fields;
      ok := cell.StoreRef(Arg(params, 0));
      BuiltNext(before, true, cell.fields, ok, name, Layout(name), params, 0);
    } else {
      // payout_airdrop and any other name: the header alone
      assert Layout(name) == [];
    }
    BuiltBody(cell.fields, ok, name, params);
    if ok {
      r := Some(cell.EndCell());
    } else {
      r := None;
    }
  }

  /** A method name with the parameters that follow it in a body. */
  datatype Call = Call(name: string, params: seq<Value>)

  predicate Matches(slot: Slot, f: Field) {
    match slot
    case UintSlot(bits) => f.Uint? && f.bits == bits
    case CoinsSlot => f.Coins?
    case RefSlot => f.Ref?
  }

  /** Reads a body back: the header, then exactly the fields its method name's layout calls for. */
  function DecodeBody(c: Cell): Option<Call> {
    if |c.fields| >= 2 && c.fields[0] == Uint(0, 32) && c.fields[1].Str? then
      var slots := Layout(c.fields[1].s);
      var rest := c.fields[2..];
      if |rest| == |slots| && forall j :: 0 <= j < |slots| ==> Matches(slots[j], rest[j]) then
        Some(Call(c.fields[1].s, seq(|rest|, j requires 0 <= j < |rest| => ValueOf(rest[j]))))
      else None
    else None
  }

  /**
   * A body keeps the method name and exactly the parameters its layout
   * stores, in order; whatever else is passed is dropped.
   */
  lemma DecodeMessageBody(name: string, params: seq<Value>)
    requires MessageBody(name, params).Some?
    ensures |Layout(name)| <= |params|
    ensures DecodeBody(MessageBody(name, params).value) == Some(Call(name, params[..|Layout(name)|]))
  {
    var slots := Layout(name);
    if |slots| > 0 {
      assert Store(slots[|slots| - 1], Arg(params, |slots| - 1)).Some?;
    }
    EncodeFields(slots, params, |slots|);
    var c := MessageBody(name, params).value;
    var rest := c.fields[2..];
    assert rest == Encode(slots, params, |slots|).value;
    assert c.fields[0] == Uint(0, 32) && c.fields[1] == Str(name);
    forall j | 0 <= j < |slots|
      ensures Matches(slots[j], rest[j]) && ValueOf(rest[j]) == params[j]
    {
      assert Store(slots[j], Arg(params, j)) == Some(rest[j]);
    }
    assert seq(|rest|, j requires 0 <= j < |rest| => ValueOf(rest[j])) == params[..|slots|];
  }

  /** Fields that match their slots and fit are written back by storing the values read from them. */
  lemma StoreDecodedFields(slots: seq<Slot>, rest: seq<Field>)
    requires |rest| == |slots|
    requires forall j :: 0 <= j < |slots| ==> Matches(slots[j], rest[j]) && FieldFits(rest[j])
    ensures forall j :: 0 <= j < |slots| ==>
      Store(slots[j], Arg(seq(|rest|, i requires 0 <= i < |rest| => ValueOf(rest[i])), j)) == Some(rest[j])
  {
  }

  /** Every well-formed body that decodes is the encoding of what it decodes to. */
  lemma EncodeDecodedBody(c: Cell)
    requires WellFormed(c) && DecodeBody(c).Some?
    ensures MessageBody(DecodeBody(c).value.name, DecodeBody(c).value.params) == Some(c)
  {
    var call := DecodeBody(c).value;
    var slots := Layout(call.name);
    var rest := c.fields[2..];
    assert c.fields == Header(call.name) + rest;
    assert forall f <- rest :: f in c.fields;
    StoreDecodedFields(slots, rest);
    EncodeStored(slots, call.params, rest);
  }

  /** Fields that are what every slot stores are the whole encoding. */
  lemma EncodeStored(slots: seq<Slot>, params: seq<Value>, fs: seq<Field>)
    requires |fs| == |slots|
    requires forall j :: 0 <= j < |slots| ==> Store(slots[j], Arg(params, j)) == Some(fs[j])
    ensures Encode(slots, params, |slots|) == Some(fs)
  {
    EncodeFields(slots, params, |slots|);
    assert Encode(slots, params, |slots|).Some?;
    assert Encode(slots, params, |slots|).value == fs;
  }

  /** open_room: header, then room id (256 bits), day (32 bits), entry fee (coins), tier (32 bits). */
  lemma OpenRoomBody(room: int, day: int, fee: int, tier: int)
    requires 0 <= room < Pow2(256) && 0 <= day < Pow2(32) && 0 <= fee < Pow2(CoinsBits) && 0 <= tier < Pow2(32)
    ensures MessageBody("open_room", [Int(room), Int(day), Int(fee), Int(tier)]) ==
      Some(Cell(Header("open_room") + [Uint(room, 256), Uint(day, 32), Coins(fee), Uint(tier, 32)]))
  {
    var params := [Int(room), Int(day), Int(fee), Int(tier)];
    var slots := [UintSlot(256), UintSlot(32), CoinsSlot, UintSlot(32)];
    var fs := [Uint(room, 256), Uint(day, 32), Coins(fee), Uint(tier, 32)];
    assert Layout("open_room") == slots;
    forall j | 0 <= j < 4
      ensures Store(slots[j], Arg(params, j)) == Some(fs[j])
    {
      if j == 0 {
        assert UintField(Int(room), 256) == Some(Uint(room, 256));
      }
    }
    EncodeStored(slots, params, fs);
  }

  /** The builder throws on an open_room parameter outside its field. */
  lemma OpenRoomBodyOverflow(room: int, day: int, fee: int, tier: int)
    requires !(0 <= room < Pow2(256) && 0 <= day < Pow2(32) && 0 <= fee < Pow2(CoinsBits) && 0 <= tier < Pow2(32))
    ensures MessageBody("open_room", [Int(room), Int(day), Int(fee), Int(tier)]) == None
  {
    var params := [Int(room), Int(day), Int(fee), Int(tier)];
    var slots := [UintSlot(256), UintSlot(32), CoinsSlot, UintSlot(32)];
    assert Layout("open_room") == slots;
    EncodeFields(slots, params, 4);
    if !(0 <= room < Pow2(256)) {
      assert Store(slots[0], Arg(params, 0)).None?;
    } else if !(0 <= day < Pow2(32)) {
      assert Store(slots[1], Arg(params, 1)).None?;
    } else if !(0 <= fee < Pow2(CoinsBits)) {
      assert Store(slots[2], Arg(params, 2)).None?;
    } else {
      assert Store(slots[3], Arg(params, 3)).None?;
    }
  }

  /** enter_paid, close_room and payout_paid: header, then room id (256 bits) and day (32 bits). */
  lemma RoomDayBody(name: string, room: int, day: int)
    requires name == "enter_paid" || name == "close_room" || name == "payout_paid"
    ensures MessageBody(name, [Int(room), Int(day)]) ==
      if 0 <= room < Pow2(256) && 0 <= day < Pow2(32)
      then Some(Cell(Header(name) + [Uint(room, 256), Uint(day, 32)]))
      else None
  {
    var params := [Int(room), Int(day)];
    var slots := Layout(name);
    assert slots == [UintSlot(256), UintSlot(32)];
    assert Arg(params, 0) == Int(room) && Arg(params, 1) == Int(day);
    EncodeFields(slots, params, 2);
    if 0 <= room < Pow2(256) && 0 <= day < Pow2(32) {
      assert Store(slots[0], Arg(params, 0)) == Some(Uint(room, 256));
      assert Store(slots[1], Arg(params, 1)) == Some(Uint(day, 32));
      assert Encode(slots, params, 2).value == [Uint(room, 256), Uint(day, 32)];
    } else if 0 <= room < Pow2(256) {
      assert Store(slots[1], Arg(params, 1)) == None;
    } else {
      assert Store(slots[0], Arg(params, 0)) == None;
    }
  }

  /** payout_airdrop and every name the switch does not list: the header alone, whatever the parameters. */
  lemma HeaderOnlyBody(name: string, params: seq<Value>)
    requires name != "open_room" && name != "enter_paid" && name != "close_room"
    requires name != "payout_paid" && name != "upgrade"
    ensures MessageBody(name, params) == Some(Cell(Header(name)))
  {
    assert Layout(name) == [];
    assert Header(name) + Encode([], params, 0).value == Header(name);
  }

  /** upgrade: header, then exactly one reference, to the new code cell. */
  lemma UpgradeBody(code: Cell, params: seq<Value>)
    ensures MessageBody("upgrade", [CellValue(code)] + params) == Some(Cell(Header("upgrade") + [Ref(code)]))
  {
    var ps := [CellValue(code)] + params;
    assert Arg(ps, 0) == CellValue(code);
    EncodeFields(Layout("upgrade"), ps, 1);
    assert Store(Layout("upgrade")[0], Arg(ps, 0)) == Some(Ref(code));
    assert Encode(Layout("upgrade"), ps, 1).value == [Ref(code)];
  }

  /** Every body the builder completes is well formed, given well-formed cells to reference. */
  lemma MessageBodyWellFormed(name: string, params: seq<Value>)
    requires forall v <- params :: v.CellValue? ==> WellFormed(v.c)
    requires MessageBody(name, params).Some?
    ensures WellFormed(MessageBody(name, params).value)
  {
    var c := MessageBody(name, params).value;
    var slots := Layout(name);
    EncodeFields(slots, params, |slots|);
    forall f <- c.fields
      ensures FieldFits(f) && (f.Ref? ==> WellFormed(f.c))
    {
      var i :| 0 <= i < |c.fields| && c.fields[i] == f;
      if i >= 2 {
        assert Store(slots[i - 2], Arg(params, i - 2)) == Some(f);
        if f.Ref? {
          assert Arg(params, i - 2) in params;
        }
      }
    }
  }
}
