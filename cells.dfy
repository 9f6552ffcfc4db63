/**
 * Cells of the TON SDK as sequences of field tokens: each token is one call
 * on the SDK's cell builder. Bit-level layout (the 1023-bit and 4-reference
 * limits, the spill of long strings into references) is not modelled.
 */
module Cells {
  import opened Wrappers

  /** An account address, identified by its user-friendly text; the SDK's parser is not modelled. */
  datatype Address = Address(text: string)

  datatype Field =
    | Uint(v: int, bits: nat)   // storeUint(v, bits)
    | Coins(v: int)             // storeCoins(v): TL-B VarUInteger 16
    | Str(s: string)            // storeStringTail(s)
    | Addr(a: Address)          // storeAddress(a)
    | Ref(c: Cell)              // storeRef(c)

  datatype Cell = Cell(fields: seq<Field>)

  /** The cell with no fields and no references (Cell.EMPTY). */
  const Empty := Cell([])

  /**
   * 2 to the power n, computed by halving the exponent so that the widths
   * the scripts use (up to 256 bits) unfold in a few steps.
   */
  function Pow2(n: nat): (r: nat)
    ensures r >= 1
  {
    if n == 0 then 1
    else if n % 2 == 0 then Pow2(n / 2) * Pow2(n / 2)
    else 2 * Pow2(n - 1)
  }

  /** Pow2 doubles with every bit: it is the power of two it is named for. */
  lemma {:induction false} Pow2Double(n: nat)
    ensures Pow2(n + 1) == 2 * Pow2(n)
  {
    if n % 2 == 1 {
      var k := n / 2;
      assert n == 2 * k + 1 && n + 1 == 2 * (k + 1);
      Pow2Double(k);
      Pow2Halves(k + 1);
      Pow2Halves(k);
      DoubleSquared(Pow2(k));
    }
  }

  /** (2p)^2 = 2(2p^2), the arithmetic step of the odd case. */
  lemma DoubleSquared(p: int)
    ensures (2 * p) * (2 * p) == 2 * (2 * (p * p))
  {
  }

  /** The two halving steps of the definition, for an exponent written as 2k or 2k + 1. */
  lemma Pow2Halves(k: nat)
    ensures Pow2(2 * k) == Pow2(k) * Pow2(k)
    ensures Pow2(2 * k + 1) == 2 * Pow2(2 * k)
  {
  }

  /** The bounds of the field widths the scripts use. */
  lemma Pow2Widths()
    ensures Pow2(16) == 0x1_0000
    ensures Pow2(32) == 0x1_0000_0000
    ensures Pow2(120) == 0x100_0000_0000_0000_0000_0000_0000_0000
    ensures Pow2(256) == 0x1_0000_0000_0000_0000_0000_0000_0000_0000_0000_0000_0000_0000_0000_0000_0000_0000
  {
    assert Pow2(1) == 0x2;
    assert Pow2(2) == 0x4;
    assert Pow2(3) == 0x8;
    assert Pow2(4) == 0x10;
    assert Pow2(6) == 0x40;
    assert Pow2(7) == 0x80;
    assert Pow2(8) == 0x100;
    assert Pow2(14) == 0x4000;
    assert Pow2(15) == 0x8000;
    assert Pow2(16) == 0x10000;
    assert Pow2(30) == 0x40000000;
    assert Pow2(32) == 0x100000000;
    assert Pow2(60) == 0x1000000000000000;
    assert Pow2(64) == 0x10000000000000000;
    assert Pow2(120) == 0x1000000000000000000000000000000;
    assert Pow2(128) == 0x100000000000000000000000000000000;
    assert Pow2(256) == 0x10000000000000000000000000000000000000000000000000000000000000000;
  }

  /**
   * VarUInteger 16 (block.tlb): a 4-bit byte count below 16, then that many
   * bytes, so a coin amount has at most 15 bytes.
   */
  const CoinsBits: nat := 120

  /** A token the SDK would have accepted: every integer fits its width. */
  predicate FieldFits(f: Field) {
    match f
    case Uint(v, bits) => 0 <= v < Pow2(bits)
    case Coins(v) => 0 <= v < Pow2(CoinsBits)
    case _ => true
  }

  /** A cell every one of whose tokens, in it and in the cells it references, fits. */
  predicate WellFormed(c: Cell) {
    forall f <- c.fields :: FieldFits(f) && (f.Ref? ==> WellFormed(f.c))
  }

  /** A JavaScript value handed to the builder: an integer (number or bigint), a cell, or a missing argument. */
  datatype Value = Int(i: int) | CellValue(c: Cell) | Undefined

  /** What a field reads back as. */
  function ValueOf(f: Field): Value {
    match f
    case Uint(v, _) => Int(v)
    case Coins(v) => Int(v)
    case Ref(c) => CellValue(c)
    case _ => Undefined
  }

  /**
   * What storeUint(value, bits) writes: a bits-wide field that fits and reads
   * back as the value. None, where the SDK throws, exactly when no such field
   * exists (not an integer, negative, too wide).
   */
  function UintField(value: Value, bits: nat): (f: Option<Field>)
    ensures f.Some? ==> f.value.Uint? && f.value.bits == bits && FieldFits(f.value) && ValueOf(f.value) == value
    ensures f.None? ==> forall g: Field :: g.Uint? && g.bits == bits && FieldFits(g) ==> ValueOf(g) != value
  {
    if value.Int? && 0 <= value.i < Pow2(bits) then Some(Uint(value.i, bits)) else None
  }

  /**
   * What storeCoins(value) writes: a coins field that fits and reads back as
   * the value. None, where the SDK throws, exactly when no such field exists
   * (negative, or more than 15 bytes).
   */
  function CoinsField(value: Value): (f: Option<Field>)
    ensures f.Some? ==> f.value.Coins? && FieldFits(f.value) && ValueOf(f.value) == value
    ensures f.None? ==> forall g: Field :: g.Coins? && FieldFits(g) ==> ValueOf(g) != value
  {
    if value.Int? && 0 <= value.i < Pow2(CoinsBits) then Some(Coins(value.i)) else None
  }

  /**
   * What storeRef(value) writes: a reference that reads back as the value.
   * None exactly when no reference does, that is, when the value is not a cell.
   */
  function RefField(value: Value): (f: Option<Field>)
    ensures f.Some? ==> f.value.Ref? && ValueOf(f.value) == value
    ensures f.None? ==> forall g: Field :: g.Ref? ==> ValueOf(g) != value
  {
    if value.CellValue? then Some(Ref(value.c)) else None
  }

  /**
   * The SDK's cell builder (beginCell()): the fields written so far. A store
   * that the SDK would reject reports failure and writes nothing; the caller
   * abandons the builder, as the thrown exception does.
   */
  class Builder {
    var fields: seq<Field>

    /** Every token written so far fits its width: the stores write nothing else. */
    ghost predicate Valid()
      reads this
    {
      forall f <- fields :: FieldFits(f)
    }

    constructor ()
      ensures fields == [] && Valid()
    {
      fields := [];
    }

    method StoreUint(value: Value, bits: nat) returns (ok: bool)
      requires Valid()
      modifies this
      ensures Valid()
      ensures ok == UintField(value, bits).Some?
      ensures fields == if ok then old(fields) + [UintField(value, bits).value] else old(fields)
    {
      var f := UintField(value, bits);
      ok := f.Some?;
      if ok {
        fields := fields + [f.value];
      }
    }

    method StoreCoins(value: Value) returns (ok: bool)
      requires Valid()
      modifies this
      ensures Valid()
      ensures ok == CoinsField(value).Some?
      ensures fields == if ok then old(fields) + [CoinsField(value).value] else old(fields)
    {
      var f := CoinsField(value);
      ok := f.Some?;
      if ok {
        fields := fields + [f.value];
      }
    }

    method StoreRef(value: Value) returns (ok: bool)
      requires Valid()
      modifies this
      ensures Valid()
      ensures ok == RefField(value).Some?
      ensures fields == if ok then old(fields) + [RefField(value).value] else old(fields)
    {
      var f := RefField(value);
      ok := f.Some?;
      if ok {
        fields := fields + [f.value];
      }
    }

    method StoreStringTail(s: string)
      requires Valid()
      modifies this
      ensures Valid()
      ensures fields == old(fields) + [Str(s)]
    {
      fields := fields + [Str(s)];
    }

    /**
     * endCell: the cell holds the fields written, in order, and is well
     * formed as soon as every cell it references is.
     */
    function EndCell(): (c: Cell)
      reads this
      requires Valid()
      ensures c.fields == fields
      ensures (forall f <- c.fields :: f.Ref? ==> WellFormed(f.c)) ==> WellFormed(c)
    {
      Cell(fields)
    }
  }
}
