// Machine words as sequences of bits, lowest first: masking takes bits, shifting right drops them, and
// adding a value shifted to where a word ends appends it.

module Words {
  import opened Coordinates
  import opened Digits

  type Word = seq<bool>

  function Not(a: Word): (r: Word)
    ensures |r| == |a|
  {
    if a == [] then [] else [!a[0]] + Not(a[1..])
  }

  lemma {:induction false} NotAt(a: Word, i: nat)
    requires i < |a|
    ensures Not(a)[i] == !a[i]
  {
    if i > 0 { NotAt(a[1..], i - 1); }
  }

  lemma {:induction false} NotNot(a: Word)
    ensures Not(Not(a)) == a
  {
    if a != [] { NotNot(a[1..]); }
  }

  function Val(w: Word): nat { if w == [] then 0 else (if w[0] then 1 else 0) + 2 * Val(w[1..]) }

  // The n low bits of x.
  function Bits(x: nat, n: nat): (w: Word)
    ensures |w| == n
  {
    if n == 0 then [] else [x % 2 == 1] + Bits(x / 2, n - 1)
  }

  lemma {:induction false} ValBound(w: Word)
    ensures Val(w) < Pow(2, |w|)
  {
    if w != [] { ValBound(w[1..]); }
  }

  // x << k
  function Shl(x: nat, k: nat): nat { if k == 0 then x else 2 * Shl(x, k - 1) }

  lemma {:induction false} ShlIs(x: nat, k: nat)
    ensures Shl(x, k) == x * Pow(2, k)
  {
    if k > 0 {
      ShlIs(x, k - 1);
      Twice(x, Pow(2, k - 1));
    }
  }

  lemma Twice(v: nat, p: nat)
    ensures v * (2 * p) == 2 * (v * p)
  {}

  // Adding a shifted word appends it.
  lemma {:induction false} ValConcat(a: Word, b: Word)
    ensures Val(a + b) == Val(a) + Shl(Val(b), |a|)
  {
    if a == [] {
      assert a + b == b;
    } else {
      assert (a + b)[1..] == a[1..] + b;
      ValConcat(a[1..], b);
    }
  }

  // Complementing under the mask of all bits.
  lemma {:induction false} ValNot(w: Word)
    ensures Val(Not(w)) == Pow(2, |w|) - 1 - Val(w)
  {
    if w != [] {
      assert Not(w)[1..] == Not(w[1..]);
      ValNot(w[1..]);
    }
  }

  lemma {:induction false} BitsVal(w: Word)
    ensures Bits(Val(w), |w|) == w
  {
    if w != [] {
      BitsVal(w[1..]);
      var b := if w[0] then 1 else 0;
      DivMod(b, Val(w[1..]), 2);
      assert w == [w[0]] + w[1..];
    }
  }

  lemma ModTwice(x: nat, p: nat)
    requires p >= 1
    ensures x % (2 * p) == x % 2 + 2 * (x / 2 % p)
  {
    var h, b := x / 2, x % 2;
    var q, r := h / p, h % p;
    Euclid(h, p);
    Twice(q, p);
    DivMod(2 * r + b, q, 2 * p);
  }

  // Masking keeps the low bits.
  lemma {:induction false} ValBits(x: nat, n: nat)
    ensures Pow(2, n) >= 1 && Val(Bits(x, n)) == x % Pow(2, n)
  {
    PowPos(2, n);
    if n > 0 {
      ValBits(x / 2, n - 1);
      ModTwice(x, Pow(2, n - 1));
    } else {
      assert x % 1 == 0;
    }
  }

  lemma BitsMask(x: nat, n: nat)
    ensures Pow(2, n) >= 1 && Bits(x % Pow(2, n), n) == Bits(x, n)
  {
    ValBits(x, n);
    BitsVal(Bits(x, n));
  }

  // x >> k
  function Shr(x: nat, k: nat): nat { if k == 0 then x else Shr(x / 2, k - 1) }

  lemma {:induction false} ShrIs(x: nat, k: nat)
    ensures Pow(2, k) >= 1 && Shr(x, k) == x / Pow(2, k)
  {
    PowPos(2, k);
    if k > 0 {
      ShrIs(x / 2, k - 1);
      DivDiv(x, 2, Pow(2, k - 1));
    } else {
      assert x / 1 == x;
    }
  }

  // Shifting right drops the low bits.
  lemma {:induction false} BitsCut(x: nat, n: nat, k: nat)
    requires k <= n
    ensures Bits(x, n)[..k] == Bits(x, k) && Bits(x, n)[k..] == Bits(Shr(x, k), n - k)
  {
    if k > 0 {
      BitsCut(x / 2, n - 1, k - 1);
      assert Bits(x, n) == [x % 2 == 1] + Bits(x / 2, n - 1);
      assert Bits(x, k) == [x % 2 == 1] + Bits(x / 2, k - 1);
      assert Bits(x, n)[k..] == Bits(x / 2, n - 1)[k - 1..];
    }
  }

  lemma {:induction false} PowMono(a: nat, b: nat)
    requires a <= b
    ensures Pow(2, a) <= Pow(2, b)
    decreases b - a
  {
    if a < b {
      PowMono(a, b - 1);
      PowPos(2, b - 1);
    }
  }
}
