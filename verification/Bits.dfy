/** Bits of a 512-byte bitmap block, by shift and mask. */
module Bits {
  import opened Blocks

  const BITS := 4096

  /** `1 << k` */
  function Mask(k: nat): byte
    requires k < 8
  {
    match k
    case 0 => 0x01 case 1 => 0x02 case 2 => 0x04 case 3 => 0x08
    case 4 => 0x10 case 5 => 0x20 case 6 => 0x40 case _ => 0x80
  }

  predicate Bit(b: byte, k: nat)
    requires k < 8
  {
    b & Mask(k) != 0
  }

  function SetBit(b: byte, k: nat): byte
    requires k < 8
  {
    b | Mask(k)
  }

  function ClearBit(b: byte, k: nat): byte
    requires k < 8
  {
    b & !Mask(k)
  }

  lemma BitsOfSet(b: byte, k: nat, j: nat)
    requires k < 8 && j < 8
    ensures Bit(SetBit(b, k), j) <==> j == k || Bit(b, j)
  {
  }

  lemma BitsOfClear(b: byte, k: nat, j: nat)
    requires k < 8 && j < 8
    ensures Bit(ClearBit(b, k), j) <==> j != k && Bit(b, j)
  {
  }

  predicate BitAt(b: Block, n: nat)
    requires n < BITS
  {
    Bit(b[n / 8], n % 8)
  }

  function SetAt(b: Block, n: nat): Block
    requires n < BITS
  {
    b[n / 8 := SetBit(b[n / 8], n % 8)]
  }

  function ClearAt(b: Block, n: nat): Block
    requires n < BITS
  {
    b[n / 8 := ClearBit(b[n / 8], n % 8)]
  }

  lemma AfterSet(b: Block, n: nat, m: nat)
    requires n < BITS && m < BITS
    ensures BitAt(SetAt(b, n), m) <==> m == n || BitAt(b, m)
  {
    if m / 8 == n / 8 {
      BitsOfSet(b[n / 8], n % 8, m % 8);
    }
  }

  lemma AfterClear(b: Block, n: nat, m: nat)
    requires n < BITS && m < BITS
    ensures BitAt(ClearAt(b, n), m) <==> m != n && BitAt(b, m)
  {
    if m / 8 == n / 8 {
      BitsOfClear(b[n / 8], n % 8, m % 8);
    }
  }

  lemma ZeroHasNone(n: nat)
    requires n < BITS
    ensures !BitAt(ZERO, n)
  {
  }
}

/** The masks are the shifts the source writes. */
module Shifts {
  import opened Blocks
  import opened Bits

  lemma MasksAreShifts(b: byte, k: nat)
    requires k < 8
    ensures Bit(b, k) <==> (b >> k) & 1 == 1
    ensures SetBit(b, k) == b | (1 << k)
    ensures ClearBit(b, k) == b & !(1 << k)
  {
    if k < 4 {
      LowShifts(b, k);
    } else {
      HighShifts(b, k);
    }
  }

  lemma LowShifts(b: byte, k: nat)
    requires k < 4
    ensures Bit(b, k) <==> (b >> k) & 1 == 1
    ensures SetBit(b, k) == b | (1 << k)
    ensures ClearBit(b, k) == b & !(1 << k)
  {
    if k == 0 || k == 1 {
    } else {
    }
  }

  lemma HighShifts(b: byte, k: nat)
    requires 4 <= k < 8
    ensures Bit(b, k) <==> (b >> k) & 1 == 1
    ensures SetBit(b, k) == b | (1 << k)
    ensures ClearBit(b, k) == b & !(1 << k)
  {
    if k == 4 || k == 5 {
    } else {
    }
  }
}
