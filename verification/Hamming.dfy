// The Hamming counters of the power model: a reduction in six steps on whole words, and eight look-ups in a
// table of bytes.

module Hamming {

  // ---------- the reference: set bits, one by one ----------

  function One(x: bv64): nat { if x & 1 == 1 then 1 else 0 }

  // The set bits of the lowest byte.
  function Ones(x: bv64): nat {
    One(x) + One(x >> 1) + One(x >> 2) + One(x >> 3) + One(x >> 4) + One(x >> 5) + One(x >> 6) + One(x >> 7)
  }

  // The set bits of a word.
  function Count(x: bv64): nat {
    Ones(x) + Ones(x >> 8) + Ones(x >> 16) + Ones(x >> 24) + Ones(x >> 32) + Ones(x >> 40) + Ones(x >> 48) +
      Ones(x >> 56)
  }

  // ---------- SIM_power_Hamming_slow ----------

  function Step0(x: bv64): bv64 { (x & 0x5555555555555555) + ((x >> 1) & 0x5555555555555555) }
  function Step1(x: bv64): bv64 { (x & 0x3333333333333333) + ((x >> 2) & 0x3333333333333333) }
  function Step2(x: bv64): bv64 { (x + (x >> 4)) & 0x0f0f0f0f0f0f0f0f }
  function Step3(x: bv64): bv64 { (x + (x >> 8)) & 0x00ff00ff00ff00ff }
  function Step4(x: bv64): bv64 { (x + (x >> 16)) & 0x0000ffff0000ffff }
  function Step5(x: bv64): bv64 { (x + (x >> 32)) & 0x00000000ffffffff }

  // The first three steps count each byte on its own, the last three add the bytes up.
  function ByteSums(x: bv64): bv64 { Step2(Step1(Step0(x))) }

  function Reduced(x: bv64): bv64 { Step5(Step4(Step3(ByteSums(x)))) }

  function HammingSlow(oldVal: bv64, newVal: bv64, mask: bv64): bv64 { Reduced((oldVal ^ newVal) & mask) }

  // A field of at most seven bits.
  function Low(x: bv64): bv7 { (x & 0x7f) as bv7 }

  lemma AddLow(a: bv7, b: bv7)
    requires a <= 32 && b <= 32
    ensures (a + b) as int == a as int + b as int
  {}

  // A byte is counted by the first three steps ...
  lemma ByteIs(b: bv64)
    requires b & 0xff == b
    ensures Low(ByteSums(b)) as int == Ones(b) && Low(ByteSums(b)) <= 8
  {}

  lemma LowByte(x: bv64)
    ensures Ones(x) == Ones(x & 0xff)
  {}

  // ... wherever it stands.
  lemma ByteAt0(x: bv64)
    ensures Low(ByteSums(x)) == Low(ByteSums(x & 0xff))
  {}

  lemma OnesAt0(x: bv64)
    ensures Low(ByteSums(x)) as int == Ones(x) && Low(ByteSums(x)) <= 8
  {
    ByteAt0(x);
    ByteIs(x & 0xff);
    LowByte(x);
  }

  lemma ByteAt1(x: bv64)
    ensures Low(ByteSums(x) >> 8) == Low(ByteSums((x >> 8) & 0xff))
  {}

  lemma OnesAt1(x: bv64)
    ensures Low(ByteSums(x) >> 8) as int == Ones(x >> 8) && Low(ByteSums(x) >> 8) <= 8
  {
    ByteAt1(x);
    ByteIs((x >> 8) & 0xff);
    LowByte(x >> 8);
  }

  lemma ByteAt2(x: bv64)
    ensures Low(ByteSums(x) >> 16) == Low(ByteSums((x >> 16) & 0xff))
  {}

  lemma OnesAt2(x: bv64)
    ensures Low(ByteSums(x) >> 16) as int == Ones(x >> 16) && Low(ByteSums(x) >> 16) <= 8
  {
    ByteAt2(x);
    ByteIs((x >> 16) & 0xff);
    LowByte(x >> 16);
  }

  lemma ByteAt3(x: bv64)
    ensures Low(ByteSums(x) >> 24) == Low(ByteSums((x >> 24) & 0xff))
  {}

  lemma OnesAt3(x: bv64)
    ensures Low(ByteSums(x) >> 24) as int == Ones(x >> 24) && Low(ByteSums(x) >> 24) <= 8
  {
    ByteAt3(x);
    ByteIs((x >> 24) & 0xff);
    LowByte(x >> 24);
  }

  lemma ByteAt4(x: bv64)
    ensures Low(ByteSums(x) >> 32) == Low(ByteSums((x >> 32) & 0xff))
  {}

  lemma OnesAt4(x: bv64)
    ensures Low(ByteSums(x) >> 32) as int == Ones(x >> 32) && Low(ByteSums(x) >> 32) <= 8
  {
    ByteAt4(x);
    ByteIs((x >> 32) & 0xff);
    LowByte(x >> 32);
  }

  lemma ByteAt5(x: bv64)
    ensures Low(ByteSums(x) >> 40) == Low(ByteSums((x >> 40) & 0xff))
  {}

  lemma OnesAt5(x: bv64)
    ensures Low(ByteSums(x) >> 40) as int == Ones(x >> 40) && Low(ByteSums(x) >> 40) <= 8
  {
    ByteAt5(x);
    ByteIs((x >> 40) & 0xff);
    LowByte(x >> 40);
  }

  lemma ByteAt6(x: bv64)
    ensures Low(ByteSums(x) >> 48) == Low(ByteSums((x >> 48) & 0xff))
  {}

  lemma OnesAt6(x: bv64)
    ensures Low(ByteSums(x) >> 48) as int == Ones(x >> 48) && Low(ByteSums(x) >> 48) <= 8
  {
    ByteAt6(x);
    ByteIs((x >> 48) & 0xff);
    LowByte(x >> 48);
  }

  lemma ByteAt7(x: bv64)
    ensures Low(ByteSums(x) >> 56) == Low(ByteSums((x >> 56) & 0xff))
  {}

  lemma OnesAt7(x: bv64)
    ensures Low(ByteSums(x) >> 56) as int == Ones(x >> 56) && Low(ByteSums(x) >> 56) <= 8
  {
    ByteAt7(x);
    ByteIs((x >> 56) & 0xff);
    LowByte(x >> 56);
  }

  // The bytes of y, the pairs of bytes of z and the halves of u hold small numbers.
  predicate SmallBytes(y: bv64) {
    && y & 0x0f0f0f0f0f0f0f0f == y && Low(y) <= 8 && Low(y >> 8) <= 8 && Low(y >> 16) <= 8 && Low(y >> 24) <= 8
    && Low(y >> 32) <= 8 && Low(y >> 40) <= 8 && Low(y >> 48) <= 8 && Low(y >> 56) <= 8
  }

  predicate SmallPairs(z: bv64) {
    && z & 0x001f001f001f001f == z
    && Low(z) <= 16 && Low(z >> 16) <= 16 && Low(z >> 32) <= 16 && Low(z >> 48) <= 16
  }

  predicate SmallHalves(u: bv64) { u & 0x0000003f0000003f == u && Low(u) <= 32 && Low(u >> 32) <= 32 }

  lemma Pair0(y: bv64)
    ensures SmallBytes(y) ==> Low(Step3(y)) as int == Low(y) as int + Low(y >> 8) as int
  {
    if SmallBytes(y) {
      PairAt0(y);
      AddLow(Low(y), Low(y >> 8));
    }
  }

  lemma PairAt0(y: bv64)
    requires SmallBytes(y)
    ensures Low(Step3(y)) == Low(y) + Low(y >> 8) <= 16
  {}

  lemma Pair1(y: bv64)
    ensures SmallBytes(y) ==> Low(Step3(y) >> 16) as int == Low(y >> 16) as int + Low(y >> 24) as int
  {
    if SmallBytes(y) {
      PairAt1(y);
      AddLow(Low(y >> 16), Low(y >> 24));
    }
  }

  lemma PairAt1(y: bv64)
    requires SmallBytes(y)
    ensures Low(Step3(y) >> 16) == Low(y >> 16) + Low(y >> 24) <= 16
  {}

  lemma Pair2(y: bv64)
    ensures SmallBytes(y) ==> Low(Step3(y) >> 32) as int == Low(y >> 32) as int + Low(y >> 40) as int
  {
    if SmallBytes(y) {
      PairAt2(y);
      AddLow(Low(y >> 32), Low(y >> 40));
    }
  }

  lemma PairAt2(y: bv64)
    requires SmallBytes(y)
    ensures Low(Step3(y) >> 32) == Low(y >> 32) + Low(y >> 40) <= 16
  {}

  lemma Pair3(y: bv64)
    ensures SmallBytes(y) ==> Low(Step3(y) >> 48) as int == Low(y >> 48) as int + Low(y >> 56) as int
  {
    if SmallBytes(y) {
      PairAt3(y);
      AddLow(Low(y >> 48), Low(y >> 56));
    }
  }

  lemma PairAt3(y: bv64)
    requires SmallBytes(y)
    ensures Low(Step3(y) >> 48) == Low(y >> 48) + Low(y >> 56) <= 16
  {}

  lemma PairsSmall(y: bv64)
    ensures SmallBytes(y) ==> SmallPairs(Step3(y))
  {}

  lemma Half0(z: bv64)
    ensures SmallPairs(z) ==> Low(Step4(z)) as int == Low(z) as int + Low(z >> 16) as int
  {
    if SmallPairs(z) {
      HalfAt0(z);
      AddLow(Low(z), Low(z >> 16));
    }
  }

  lemma HalfAt0(z: bv64)
    requires SmallPairs(z)
    ensures Low(Step4(z)) == Low(z) + Low(z >> 16) <= 32
  {}

  lemma Half1(z: bv64)
    ensures SmallPairs(z) ==> Low(Step4(z) >> 32) as int == Low(z >> 32) as int + Low(z >> 48) as int
  {
    if SmallPairs(z) {
      HalfAt1(z);
      AddLow(Low(z >> 32), Low(z >> 48));
    }
  }

  lemma HalfAt1(z: bv64)
    requires SmallPairs(z)
    ensures Low(Step4(z) >> 32) == Low(z >> 32) + Low(z >> 48) <= 32
  {}

  lemma HalvesSmall(z: bv64)
    ensures SmallPairs(z) ==> SmallHalves(Step4(z))
  {}

  lemma Whole(u: bv64)
    ensures SmallHalves(u) ==> Low(Step5(u)) as int == Low(u) as int + Low(u >> 32) as int
  {
    if SmallHalves(u) {
      WholeIs(u);
      AddLow(Low(u), Low(u >> 32));
    }
  }

  lemma WholeIs(u: bv64)
    requires SmallHalves(u)
    ensures Low(Step5(u)) == Low(u) + Low(u >> 32)
  {}

  lemma HalfSums(z: bv64)
    ensures SmallPairs(z) ==>
              Low(Step5(Step4(z))) as int ==
                Low(z) as int + Low(z >> 16) as int + Low(z >> 32) as int + Low(z >> 48) as int
  {
    HalvesSmall(z);
    Half0(z);
    Half1(z);
    Whole(Step4(z));
  }

  lemma PairSums(y: bv64)
    ensures SmallBytes(y) ==>
              Low(Step5(Step4(Step3(y)))) as int ==
                Low(y) as int + Low(y >> 8) as int + Low(y >> 16) as int + Low(y >> 24) as int +
                Low(y >> 32) as int + Low(y >> 40) as int + Low(y >> 48) as int + Low(y >> 56) as int
  {
    PairsSmall(y);
    Pair0(y);
    Pair1(y);
    Pair2(y);
    Pair3(y);
    HalfSums(Step3(y));
  }

  lemma BytesSmall(x: bv64)
    ensures SmallBytes(ByteSums(x))
  {
    OnesAt0(x);
    OnesAt1(x);
    OnesAt2(x);
    OnesAt3(x);
    OnesAt4(x);
    OnesAt5(x);
    OnesAt6(x);
    OnesAt7(x);
  }

  // The reduction counts the set bits.
  lemma ReducedCounts(x: bv64)
    ensures Low(Reduced(x)) as int == Count(x)
  {
    OnesAt0(x);
    OnesAt1(x);
    OnesAt2(x);
    OnesAt3(x);
    OnesAt4(x);
    OnesAt5(x);
    OnesAt6(x);
    OnesAt7(x);
    BytesSmall(x);
    PairSums(ByteSums(x));
  }

  lemma WholeFits(u: bv64)
    ensures SmallHalves(u) ==> Step5(u) & 0x7f == Step5(u)
  {}

  lemma ReducedFits(x: bv64)
    ensures Reduced(x) & 0x7f == Reduced(x)
  {
    BytesSmall(x);
    PairsSmall(ByteSums(x));
    HalvesSmall(Step3(ByteSums(x)));
    WholeFits(Step4(Step3(ByteSums(x))));
  }

  // It is the number of bits on which the two values differ under the mask, for all values.
  lemma SlowCounts(oldVal: bv64, newVal: bv64, mask: bv64)
    ensures Low(HammingSlow(oldVal, newVal, mask)) as int == Count((oldVal ^ newVal) & mask)
    ensures HammingSlow(oldVal, newVal, mask) & 0x7f == HammingSlow(oldVal, newVal, mask)
  {
    ReducedCounts((oldVal ^ newVal) & mask);
    ReducedFits((oldVal ^ newVal) & mask);
  }

  // ---------- SIM_power_init and SIM_power_Hamming ----------

  // What the table holds for a byte.
  function Entry(b: bv8): nat { Low(HammingSlow(b as bv64, 0, 0xff)) as nat }

  method PowerInit() returns (tab: seq<nat>)
    ensures Table(tab)
  {
    tab := [];
    for i := 0 to 256
      invariant |tab| == i && forall j {:trigger tab[j]} :: 0 <= j < i ==> tab[j] == Entry(j as bv8)
    {
      tab := tab + [Entry(i as bv8)];
    }
  }

  ghost predicate Table(tab: seq<nat>) {
    |tab| == 256 && forall j {:trigger tab[j]} :: 0 <= j < 256 ==> tab[j] == Entry(j as bv8)
  }

  function Byte(x: bv64): bv8 { (x & 0xff) as bv8 }

  lemma ByteIndex(b: bv8)
    ensures 0 <= b as int < 256 && (b as int) as bv8 == b
  {}

  lemma ByteBack(x: bv64)
    ensures Byte(x) as bv64 == x & 0xff && ((Byte(x) as bv64) ^ 0) & 0xff == x & 0xff
  {}

  lemma HighZero(b: bv64)
    ensures b & 0xff == b ==>
            b >> 8 == 0 && b >> 16 == 0 && b >> 24 == 0 && b >> 32 == 0 && b >> 40 == 0 && b >> 48 == 0 && b >> 56 == 0
    ensures Ones(0) == 0
  {}

  lemma CountByte(b: bv64)
    ensures b & 0xff == b ==> Count(b) == Ones(b)
  {
    HighZero(b);
  }

  // The entry of a byte is its number of set bits.
  lemma EntryCounts(x: bv64)
    ensures Entry(Byte(x)) == Ones(x)
  {
    ByteBack(x);
    ReducedCounts(x & 0xff);
    CountByte(x & 0xff);
    LowByte(x);
  }

  lemma LookUp(tab: seq<nat>, x: bv64)
    requires Table(tab)
    ensures 0 <= Byte(x) as int < 256 && tab[Byte(x) as int] == Ones(x)
  {
    ByteIndex(Byte(x));
    EntryCounts(x);
  }

  // SIM_power_Hamming: eight look-ups, one for each byte of the word.
  method PowerHamming(tab: seq<nat>, oldVal: bv64, newVal: bv64, mask: bv64) returns (rval: nat)
    requires Table(tab)
    ensures rval == Count((oldVal ^ newVal) & mask)
    ensures rval == Low(HammingSlow(oldVal, newVal, mask)) as nat
  {
    var x := (oldVal ^ newVal) & mask;
    LookUpAll(tab, x);
    SlowCounts(oldVal, newVal, mask);
    rval := tab[Byte(x) as int] + tab[Byte(x >> 8) as int] + tab[Byte(x >> 16) as int] + tab[Byte(x >> 24) as int] +
            tab[Byte(x >> 32) as int] + tab[Byte(x >> 40) as int] + tab[Byte(x >> 48) as int] +
              tab[Byte(x >> 56) as int];
  }

  lemma LookUpAll(tab: seq<nat>, x: bv64)
    requires Table(tab)
    ensures tab[Byte(x) as int] + tab[Byte(x >> 8) as int] + tab[Byte(x >> 16) as int] + tab[Byte(x >> 24) as int] +
            tab[Byte(x >> 32) as int] + tab[Byte(x >> 40) as int] + tab[Byte(x >> 48) as int] +
              tab[Byte(x >> 56) as int] == Count(x)
  {
    LookUp(tab, x);
    LookUp(tab, x >> 8);
    LookUp(tab, x >> 16);
    LookUp(tab, x >> 24);
    LookUp(tab, x >> 32);
    LookUp(tab, x >> 40);
    LookUp(tab, x >> 48);
    LookUp(tab, x >> 56);
  }
}
