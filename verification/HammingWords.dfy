// The two Hamming distances of the power model agree: the one of bus-invert coding, as the bits in which two numbers
// differ, and the one of the look-up table, as the set bits of a masked machine word.

module HammingWords {
  import opened Coordinates
  import opened Digits
  import opened Words
  import opened BusInvert
  import Hamming

  // The bits of a machine word, lowest first, and the number they stand for.
  function BitsOf(x: bv64, n: nat): (w: Word)
    ensures |w| == n
  {
    if n == 0 then [] else [x & 1 == 1] + BitsOf(x >> 1, n - 1)
  }

  function Number(x: bv64): nat { Val(BitsOf(x, WORD)) }

  function CountBits(x: bv64, n: nat): nat { if n == 0 then 0 else Hamming.One(x) + CountBits(x >> 1, n - 1) }

  // Byte by byte or bit by bit.
  lemma CountByte(x: bv64, n: nat)
    ensures CountBits(x, n + 8) == Hamming.Ones(x) + CountBits(x >> 8, n)
  {
    assert CountBits(x, n + 8) == Hamming.One(x) + Hamming.One(x >> 1) + CountBits(x >> 2, n + 6);
    assert CountBits(x >> 2, n + 6) == Hamming.One(x >> 2) + Hamming.One(x >> 3) + CountBits(x >> 4, n + 4);
    assert CountBits(x >> 4, n + 4) == Hamming.One(x >> 4) + Hamming.One(x >> 5) + CountBits(x >> 6, n + 2);
    assert CountBits(x >> 6, n + 2) == Hamming.One(x >> 6) + Hamming.One(x >> 7) + CountBits(x >> 8, n);
  }

  // y is x shifted right by one byte.
  predicate Byte(x: bv64, y: bv64) { y == x >> 8 }

  lemma NextByte(x: bv64, y: bv64, n: nat)
    requires n >= 8 && Byte(x, y)
    ensures CountBits(x, n) == Hamming.Ones(x) + CountBits(y, n - 8)
  {
    CountByte(x, n - 8);
  }

  lemma FourBytes(x: bv64, y1: bv64, y2: bv64, y3: bv64, y4: bv64, n: nat)
    requires n >= 32 && Byte(x, y1) && Byte(y1, y2) && Byte(y2, y3) && Byte(y3, y4)
    ensures CountBits(x, n) ==
            Hamming.Ones(x) + Hamming.Ones(y1) + Hamming.Ones(y2) + Hamming.Ones(y3) + CountBits(y4, n - 32)
  {
    NextByte(x, y1, n);
    NextByte(y1, y2, n - 8);
    NextByte(y2, y3, n - 16);
    NextByte(y3, y4, n - 24);
  }

  lemma Shifted(x: bv64)
    ensures Byte(x, x >> 8) && Byte(x >> 8, x >> 16) && Byte(x >> 16, x >> 24) && Byte(x >> 24, x >> 32)
    ensures Byte(x >> 32, x >> 40) && Byte(x >> 40, x >> 48) && Byte(x >> 48, x >> 56)
  {}

  lemma LowBytes(x: bv64, y: bv64, n: nat)
    requires n >= 32 && y == x >> 32
    ensures CountBits(x, n) ==
            Hamming.Ones(x) + Hamming.Ones(x >> 8) + Hamming.Ones(x >> 16) + Hamming.Ones(x >> 24) +
              CountBits(y, n - 32)
  {
    Shifted(x);
    FourBytes(x, x >> 8, x >> 16, x >> 24, y, n);
  }

  lemma HighBytes(x: bv64, y: bv64, n: nat)
    requires n >= 32 && y == x >> 32
    ensures CountBits(y, n) == Hamming.Ones(x >> 32) + Hamming.Ones(x >> 40) + Hamming.Ones(x >> 48) +
                               Hamming.Ones(x >> 56) + CountBits((x >> 56) >> 8, n - 32)
  {
    Shifted(x);
    FourBytes(y, x >> 40, x >> 48, x >> 56, (x >> 56) >> 8, n);
  }

  lemma CountIs(x: bv64, y: bv64, n: nat)
    requires n == 64 && y == x >> 32
    ensures Hamming.Count(x) == CountBits(x, n)
  {
    LowBytes(x, y, n);
    HighBytes(x, y, n - 32);
  }

  // n copies of b.
  function Copies(b: bool, n: nat): (w: Word)
    ensures |w| == n
  {
    if n == 0 then [] else [b] + Copies(b, n - 1)
  }

  lemma {:induction false} CopiesVal(n: nat)
    ensures Val(Copies(false, n)) == 0 && Not(Copies(false, n)) == Copies(true, n)
  {
    if n > 0 { CopiesVal(n - 1); }
  }

  // The low w of n bits.
  function LowMask(w: nat, n: nat): Word
    requires w <= n
  {
    Copies(true, w) + Copies(false, n - w)
  }

  lemma LowMaskVal(w: nat, n: nat)
    requires w <= n
    ensures Val(LowMask(w, n)) == Pow(2, w) - 1
  {
    CopiesVal(w);
    CopiesVal(n - w);
    ValNot(Copies(false, w));
    ValConcat(Copies(true, w), Copies(false, n - w));
    ShlIs(0, w);
  }

  // A mask that is one less than a power of two has exactly the low bits.
  lemma MaskIs(mask: bv64, w: nat, n: nat)
    requires w <= n && Val(BitsOf(mask, n)) == Pow(2, w) - 1
    ensures BitsOf(mask, n) == LowMask(w, n)
  {
    LowMaskVal(w, n);
    BitsVal(LowMask(w, n));
    BitsVal(BitsOf(mask, n));
  }

  lemma MaskTail(w: nat, n: nat)
    requires w <= n && n > 0
    ensures LowMask(w, n) == [w > 0] + LowMask(if w > 0 then w - 1 else 0, n - 1)
  {}

  // x1 is x without its lowest bit; z is what is left of the bits in which x and y differ under the mask.
  predicate Half(x: bv64, x1: bv64) { x1 == x >> 1 }

  predicate Differ(x: bv64, y: bv64, mask: bv64, z: bv64) { z == (x ^ y) & mask }

  predicate Odd(x: bv64) { x & 1 == 1 }

  lemma Halves(x: bv64, y: bv64, mask: bv64, z: bv64) returns (x1: bv64, y1: bv64, m1: bv64, z1: bv64)
    requires Differ(x, y, mask, z)
    ensures Half(x, x1) && Half(y, y1) && Half(mask, m1) && Half(z, z1) && Differ(x1, y1, m1, z1)
    ensures Hamming.One(z) == if Odd(mask) && Odd(x) != Odd(y) then 1 else 0
  {
    x1, y1, m1, z1 := x >> 1, y >> 1, mask >> 1, z >> 1;
  }

  lemma MaskBits(mask: bv64, m1: bv64, w: nat, n: nat)
    requires w <= n && n > 0 && BitsOf(mask, n) == LowMask(w, n) && Half(mask, m1)
    ensures Odd(mask) == (w > 0)
    ensures BitsOf(m1, n - 1) == LowMask(if w > 0 then w - 1 else 0, n - 1)
  {
    MaskTail(w, n);
    var w1 := if w > 0 then w - 1 else 0;
    assert BitsOf(mask, n)[1..] == BitsOf(m1, n - 1) && LowMask(w, n)[1..] == LowMask(w1, n - 1);
    assert Odd(mask) == BitsOf(mask, n)[0];
  }

  lemma HamBits(x: bv64, x1: bv64, y: bv64, y1: bv64, w: nat)
    requires Half(x, x1) && Half(y, y1)
    ensures Ham(BitsOf(x, w), BitsOf(y, w)) ==
            if w == 0 then 0 else (if Odd(x) == Odd(y) then 0 else 1) + Ham(BitsOf(x1, w - 1), BitsOf(y1, w - 1))
  {}

  lemma CountHalf(z: bv64, z1: bv64, n: nat)
    requires n > 0 && Half(z, z1)
    ensures CountBits(z, n) == Hamming.One(z) + CountBits(z1, n - 1)
  {}

  lemma {:induction false} CountHam(x: bv64, y: bv64, mask: bv64, z: bv64, w: nat, n: nat)
    requires w <= n && BitsOf(mask, n) == LowMask(w, n) && Differ(x, y, mask, z)
    ensures CountBits(z, n) == Ham(BitsOf(x, w), BitsOf(y, w))
  {
    var x1, y1, m1, z1 := Halves(x, y, mask, z);
    HamBits(x, x1, y, y1, w);
    if n > 0 {
      CountHalf(z, z1, n);
      MaskBits(mask, m1, w, n);
      CountHam(x1, y1, m1, z1, if w > 0 then w - 1 else 0, n - 1);
    }
  }

  lemma PrefixCons(b: bool, w: Word, k: nat)
    requires 0 < k <= |w| + 1
    ensures ([b] + w)[..k] == [b] + w[..k - 1]
  {}

  lemma {:induction false} BitsPrefix(x: bv64, n: nat, k: nat)
    requires k <= n
    ensures BitsOf(x, n)[..k] == BitsOf(x, k)
  {
    if k > 0 {
      BitsPrefix(x >> 1, n - 1, k - 1);
      PrefixCons(x & 1 == 1, BitsOf(x >> 1, n - 1), k);
    }
  }

  lemma NumberBits(x: bv64, n: nat, w: nat)
    requires w <= n
    ensures Bits(Val(BitsOf(x, n)), w) == BitsOf(x, w)
  {
    BitsVal(BitsOf(x, n));
    BitsCut(Val(BitsOf(x, n)), n, w);
    BitsPrefix(x, n, w);
  }

  // SIM_power_Hamming under a mask of the low bits, both ways.
  lemma CountIsHamming(x: bv64, y: bv64, mask: bv64, w: nat)
    requires w <= WORD && Number(mask) == Pow(2, w) - 1
    ensures Hamming.Count((x ^ y) & mask) == BusInvert.Hamming(Number(x), Number(y), w)
  {
    MaskIs(mask, w, WORD);
    CountIs((x ^ y) & mask, ((x ^ y) & mask) >> 32, WORD);
    CountHam(x, y, mask, (x ^ y) & mask, w, WORD);
    NumberBits(x, WORD, w);
    NumberBits(y, WORD, w);
  }
}
