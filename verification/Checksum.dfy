// src/app/MaintenanceController.cpp: the bitwise CRC-32. A 32-bit register is a natural number below 2^32.

module Checksum {
  import opened Bytes

  const POLYNOMIAL: nat := 0xedb8_8320
  const ALL_ONES: nat := 0xffff_ffff

  // ---- Bitwise exclusive or and conjunction.

  function Xor(a: nat, b: nat): nat {
    if a == 0 then b else if b == 0 then a
    else (if a % 2 == b % 2 then 0 else 1) + 2 * Xor(a / 2, b / 2)
  }

  function And(a: nat, b: nat): nat {
    if a == 0 || b == 0 then 0
    else (if a % 2 == 1 && b % 2 == 1 then 1 else 0) + 2 * And(a / 2, b / 2)
  }

  lemma {:induction false} XorBits(a: nat, b: nat)
    ensures Xor(a, b) % 2 == if a % 2 == b % 2 then 0 else 1
    ensures Xor(a, b) / 2 == Xor(a / 2, b / 2)
  {
    if a != 0 && b != 0 {
      LowBit(if a % 2 == b % 2 then 0 else 1, Xor(a / 2, b / 2));
    }
  }

  lemma {:induction false} LowBit(bit: nat, rest: nat)
    requires bit < 2
    ensures (bit + 2 * rest) % 2 == bit && (bit + 2 * rest) / 2 == rest
  {
  }

  // Two numbers with the same low bit and the same rest are the same.
  lemma {:induction false} SameBits(x: nat, y: nat)
    requires x % 2 == y % 2 && x / 2 == y / 2
    ensures x == y
  {
  }

  lemma {:induction false} XorCommutes(a: nat, b: nat)
    ensures Xor(a, b) == Xor(b, a)
  {
    if a != 0 && b != 0 {
      XorCommutes(a / 2, b / 2);
    }
  }

  lemma {:induction false} XorAssociates(a: nat, b: nat, c: nat)
    ensures Xor(Xor(a, b), c) == Xor(a, Xor(b, c))
    decreases a + b + c
  {
    if a != 0 && b != 0 && c != 0 {
      XorAssociates(a / 2, b / 2, c / 2);
      XorBits(a, b);
      XorBits(b, c);
      XorBits(Xor(a, b), c);
      XorBits(a, Xor(b, c));
      SameBits(Xor(Xor(a, b), c), Xor(a, Xor(b, c)));
    }
  }

  lemma {:induction false} XorSelf(a: nat)
    ensures Xor(a, a) == 0
  {
    if a != 0 {
      XorSelf(a / 2);
    }
  }

  lemma {:induction false} XorSwaps(a: nat, b: nat, c: nat, d: nat)
    ensures Xor(Xor(a, b), Xor(c, d)) == Xor(Xor(a, c), Xor(b, d))
  {
    XorAssociates(a, b, Xor(c, d));
    XorAssociates(b, c, d);
    XorCommutes(b, c);
    XorAssociates(c, b, d);
    XorAssociates(a, c, Xor(b, d));
  }

  function Power2(k: nat): (p: nat)
    ensures p > 0
  {
    if k == 0 then 1 else 2 * Power2(k - 1)
  }

  lemma {:induction false} XorStaysBelow(a: nat, b: nat, k: nat)
    requires a < Power2(k) && b < Power2(k)
    ensures Xor(a, b) < Power2(k)
    decreases k
  {
    if k > 0 {
      XorStaysBelow(a / 2, b / 2, k - 1);
      XorBits(a, b);
    }
  }

  lemma {:induction false} ThirtyTwoBits()
    ensures Power2(32) == 0x1_0000_0000
  {
    assert Power2(0) == 1;
    assert Power2(8) == 0x100;
    PowersAdd(8, 8);
    PowersAdd(16, 16);
  }

  // The term x^k of a generator of degree 32: the highest power stands in the lowest bit.
  function Term(k: nat): nat
    requires k < 32
  {
    Power2(31 - k)
  }

  // The generator of CRC-32: x^32 + x^26 + x^23 + x^22 + x^16 + x^12 + x^11 + x^10 + x^8 + x^7 + x^5 + x^4 + x^2 + x + 1.
  lemma {:induction false} PolynomialIsTheGenerator()
    ensures POLYNOMIAL ==
            Term(26) + Term(23) + Term(22) + Term(16) + Term(12) + Term(11) + Term(10) + Term(8) + Term(7) + Term(5) + Term(4)
            + Term(2) + Term(1) + Term(0)
  {
    assert Power2(5) == 0x20 && Power2(8) == 0x100 && Power2(9) == 0x200;
    assert Power2(15) == 0x8000;
    PowersAdd(15, 4);
    assert Power2(4) == 0x10 && Power2(20) == 2 * Power2(19) && Power2(21) == 2 * Power2(20);
    assert Power2(22) == 2 * Power2(21) && Power2(23) == 2 * Power2(22) && Power2(24) == 2 * Power2(23);
    assert Power2(25) == 2 * Power2(24) && Power2(26) == 2 * Power2(25) && Power2(27) == 2 * Power2(26);
    assert Power2(28) == 2 * Power2(27) && Power2(29) == 2 * Power2(28) && Power2(30) == 2 * Power2(29);
    assert Power2(31) == 2 * Power2(30);
  }

  lemma {:induction false} PowersAdd(j: nat, k: nat)
    ensures Power2(j + k) == Power2(j) * Power2(k)
  {
    if k > 0 {
      PowersAdd(j, k - 1);
      assert Power2(j) * (2 * Power2(k - 1)) == 2 * (Power2(j) * Power2(k - 1));
    }
  }

  // ---- The source's inner loop.

  // One round: the mask 0U - (crc & 1U) wraps to all ones when the low bit is set.
  function MaskedStep(crc: nat, polynomial: nat): nat {
    var mask := (0x1_0000_0000 - crc % 2) % 0x1_0000_0000;
    Xor(crc / 2, And(polynomial, mask))
  }

  method Crc32(data: seq<byte>) returns (crc: nat)
    ensures crc == Crc(data)
  {
    crc := ALL_ONES;
    for n := 0 to |data|
      invariant crc == Register(data[..n])
    {
      assert data[..n + 1][..n] == data[..n];
      EightStepsAreALookup(Register(data[..n]), data[n]);
      crc := Xor(crc, data[n]);
      ghost var start := crc;
      for bit := 0 to 8
        invariant crc == Steps(start, bit)
      {
        MaskIsBranch(crc, POLYNOMIAL);
        crc := MaskedStep(crc, POLYNOMIAL);
      }
    }
    assert data[..|data|] == data;
    crc := Xor(crc, ALL_ONES);
  }

  // ---- The CRC of section 8 of RFC 1952: a table of 256 byte remainders and one lookup for every byte.

  function BranchStep(c: nat): nat {
    Branch(c, POLYNOMIAL)
  }

  function Branch(c: nat, polynomial: nat): nat {
    if c % 2 == 1 then Xor(polynomial, c / 2) else c / 2
  }

  function Steps(c: nat, k: nat): nat {
    if k == 0 then c else BranchStep(Steps(c, k - 1))
  }

  // crc_table[n]
  function TableEntry(n: byte): nat {
    Steps(n, 8)
  }

  // The register of update_crc after data, before the final complement.
  function Register(data: seq<byte>): nat {
    if data == [] then ALL_ONES
    else
      var c := Register(data[..|data| - 1]);
      Xor(TableEntry(Xor(c, data[|data| - 1]) % 256), c / 256)
  }

  function Crc(data: seq<byte>): nat {
    Xor(Register(data), ALL_ONES)
  }

  lemma {:induction false} MaskIsBranch(c: nat, polynomial: nat)
    requires polynomial < 0x1_0000_0000
    ensures MaskedStep(c, polynomial) == Branch(c, polynomial)
  {
    ThirtyTwoBits();
    XorCommutes(polynomial, c / 2);
    AndOnes(polynomial, 32);
  }

  lemma {:induction false} AndOnes(a: nat, k: nat)
    requires a < Power2(k)
    ensures And(a, Power2(k) - 1) == a
  {
    if k > 0 {
      AndOnes(a / 2, k - 1);
    }
  }

  lemma {:induction false} StepIsLinear(a: nat, b: nat)
    ensures BranchStep(Xor(a, b)) == Xor(BranchStep(a), BranchStep(b))
  {
    XorBits(a, b);
    var x, y, p, q := a / 2, b / 2, if a % 2 == 1 then POLYNOMIAL else 0, if b % 2 == 1 then POLYNOMIAL else 0;
    XorSwaps(p, x, q, y);
    XorSelf(POLYNOMIAL);
    XorCommutes(p, 0);
  }

  lemma {:induction false} StepsAreLinear(a: nat, b: nat, k: nat)
    ensures Steps(Xor(a, b), k) == Xor(Steps(a, k), Steps(b, k))
  {
    if k > 0 {
      StepsAreLinear(a, b, k - 1);
      StepIsLinear(Steps(a, k - 1), Steps(b, k - 1));
    }
  }

  // Steps over zero bits only shift.
  lemma {:induction false} ZerosShiftOut(c: nat, k: nat)
    ensures Steps(c * Power2(k), k) == c
  {
    if k > 0 {
      var shifted := c * Power2(k - 1);
      ZerosShiftOut(c, k - 1);
      StepsFromTheFront(2 * shifted, k);
      Doubles(c, Power2(k - 1));
    }
  }

  lemma {:induction false} Doubles(c: nat, p: nat)
    ensures c * (2 * p) == 2 * (c * p)
  {
  }

  lemma {:induction false} StepsFromTheFront(c: nat, k: nat)
    requires k > 0
    ensures Steps(c, k) == Steps(BranchStep(c), k - 1)
  {
    if k > 1 {
      StepsFromTheFront(c, k - 1);
    }
  }

  lemma {:induction false} XorOfDisjoint(low: nat, high: nat, k: nat)
    requires low < Power2(k)
    ensures Xor(low, high * Power2(k)) == low + high * Power2(k)
  {
    if k == 0 {
      assert Xor(0, high) == high;
    } else {
      Doubles(high, Power2(k - 1));
      XorOfDisjoint(low / 2, high, k - 1);
      XorOfEven(low, high * Power2(k - 1));
    }
  }

  lemma {:induction false} XorOfEven(low: nat, shifted: nat)
    requires Xor(low / 2, shifted) == low / 2 + shifted
    ensures Xor(low, 2 * shifted) == low + 2 * shifted
  {
    XorBits(low, 2 * shifted);
  }

  function Halved(n: nat, k: nat): nat {
    if k == 0 then n else Halved(n, k - 1) / 2
  }

  lemma {:induction false} XorHalved(a: nat, b: nat, k: nat)
    ensures Halved(Xor(a, b), k) == Xor(Halved(a, k), Halved(b, k))
  {
    if k > 0 {
      XorHalved(a, b, k - 1);
      XorBits(Halved(a, k - 1), Halved(b, k - 1));
    }
  }

  lemma {:induction false} HalvedEightTimes(n: nat)
    ensures Halved(n, 8) == n / 256
  {
    assert Halved(n, 1) == n / 2;
    assert Halved(n, 2) == n / 4;
    assert Halved(n, 3) == n / 8;
    assert Halved(n, 4) == n / 16;
    assert Halved(n, 5) == n / 32;
    assert Halved(n, 6) == n / 64;
    assert Halved(n, 7) == n / 128;
  }

  lemma {:induction false} XorShifts(a: nat, b: byte)
    ensures Xor(a, b) / 256 == a / 256
  {
    XorHalved(a, b, 8);
    HalvedEightTimes(Xor(a, b));
    HalvedEightTimes(a);
    HalvedEightTimes(b);
    XorCommutes(a / 256, 0);
  }

  // The eight masked steps of the inner loop are one table lookup and a shift by a byte.
  lemma {:induction false} EightStepsAreALookup(c: nat, b: byte)
    ensures Steps(Xor(c, b), 8) == Xor(TableEntry(Xor(c, b) % 256), c / 256)
  {
    var word := Xor(c, b);
    assert Power2(8) == 256;
    XorOfDisjoint(word % 256, word / 256, 8);
    StepsAreLinear(word % 256, word / 256 * 256, 8);
    ZerosShiftOut(word / 256, 8);
    XorShifts(c, b);
  }

  // The checksum always fits the 32-bit fields it is stored in.
  lemma {:induction false} RegisterFits(data: seq<byte>)
    ensures Register(data) < 0x1_0000_0000
  {
    ThirtyTwoBits();
    if data != [] {
      var c := Register(data[..|data| - 1]);
      RegisterFits(data[..|data| - 1]);
      StepsFit(Xor(c, data[|data| - 1]) % 256, 8);
      XorStaysBelow(TableEntry(Xor(c, data[|data| - 1]) % 256), c / 256, 32);
    }
  }

  lemma {:induction false} StepsFit(c: nat, k: nat)
    requires c < 0x1_0000_0000
    ensures Steps(c, k) < 0x1_0000_0000
  {
    if k > 0 {
      ThirtyTwoBits();
      StepsFit(c, k - 1);
      XorStaysBelow(POLYNOMIAL, Steps(c, k - 1) / 2, 32);
    }
  }

  lemma {:induction false} CrcFits(data: seq<byte>)
    ensures Crc(data) < 0x1_0000_0000
  {
    ThirtyTwoBits();
    RegisterFits(data);
    XorStaysBelow(Register(data), ALL_ONES, 32);
  }
}
