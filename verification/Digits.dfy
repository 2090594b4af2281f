// Numbers as digits to the base k: turning one digit.

module Digits {
  import opened Coordinates

  function Pow(k: nat, e: nat): nat { if e == 0 then 1 else k * Pow(k, e - 1) }

  lemma PowPos(k: nat, e: nat)
    requires k >= 1
    ensures Pow(k, e) >= 1
  {
    if e > 0 {
      PowPos(k, e - 1);
      Multiple(k, Pow(k, e - 1));
    }
  }

  lemma {:induction false} PowAdd(k: nat, a: nat, b: nat)
    ensures Pow(k, a + b) == Pow(k, a) * Pow(k, b)
  {
    if a > 0 {
      PowAdd(k, a - 1, b);
      assert k * (Pow(k, a - 1) * Pow(k, b)) == (k * Pow(k, a - 1)) * Pow(k, b);
    }
  }

  lemma Distribute(x: int, y: int, w: int)
    ensures (x + y) * w == x * w + y * w
  {}

  lemma Reassociate(a: int, k: int, w: int)
    ensures a * k * w == a * (w * k)
  {
    assert k * w == w * k;
  }

  // A number of two digits and a remainder.
  lemma TwoDigits(a: int, d: int, k: int, w: int, r: int)
    ensures (a * k + d) * w + r == a * (w * k) + (d * w + r)
  {
    Distribute(a * k, d, w);
    Reassociate(a, k, w);
  }

  // What is below the upper digit.
  lemma LowDigit(d: int, k: int, w: int, r: int)
    requires 0 <= d < k && 0 <= r < w
    ensures 0 <= d * w + r < w * k
  {
    Monotone(0, d, w);
    Monotone(d + 1, k, w);
    Distribute(d, 1, w);
    assert k * w == w * k;
  }

  lemma DivDiv(n: nat, w: nat, k: nat)
    requires w >= 1 && k >= 1
    ensures w * k >= 1 && n / (w * k) == n / w / k
  {
    var q, r := n / w, n % w;
    var a, d := q / k, q % k;
    Multiple(w, k);
    Euclid(n, w);
    Euclid(q, k);
    TwoDigits(a, d, k, w, r);
    LowDigit(d, k, w, r);
    DivMod(d * w + r, a, w * k);
  }

  lemma Euclid(n: nat, w: nat)
    requires w >= 1
    ensures n == n / w * w + n % w && 0 <= n % w < w
  {}

  // One digit, of weight w, increased by p to the base k, as a number with the digits above it.
  function Turned(q: nat, k: nat, p: nat): nat
    requires k >= 1
  {
    q / k * k + (q % k + p) % k
  }

  // The fat tree's way to compute it: go p strides up and wrap at the end of the block.
  function Rotate(n: nat, w: nat, k: nat, p: nat): int
    requires w * k >= 1
  {
    var scale := w * k;
    var next := n + p * w;
    if next >= n / scale * scale + scale then next - scale else next
  }

  lemma TurnedIs(q: nat, k: nat, p: nat)
    requires k >= 1 && p < k
    ensures Turned(q, k, p) == if q % k + p >= k then q + p - k else q + p
    ensures Turned(q, k, p) / k == q / k && Turned(q, k, p) % k == (q % k + p) % k
  {
    assert q == q / k * k + q % k;
    Wrapped(q % k, p, k);
    DivMod((q % k + p) % k, q / k, k);
  }

  lemma Wrapped(d: nat, p: nat, k: nat)
    requires d < k && p < k
    ensures (d + p) % k == if d + p >= k then d + p - k else d + p
  {
    if d + p >= k { DivMod(d + p - k, 1, k); } else { DivMod(d + p, 0, k); }
  }

  // Rotate, when the digits above the turned one are a.
  lemma RotateIn(n: nat, w: nat, k: nat, p: nat, a: nat)
    requires w * k >= 1 && n / (w * k) == a
    ensures Rotate(n, w, k, p) == if n + p * w >= a * (w * k) + w * k then n + p * w - w * k else n + p * w
  {}

  lemma RotateValue(n: nat, w: nat, k: nat, p: nat)
    requires w >= 1 && k >= 1 && p < k
    ensures w * k >= 1 && Rotate(n, w, k, p) == Turned(n / w, k, p) * w + n % w
  {
    var q, r := n / w, n % w;
    var a, d := q / k, q % k;
    Euclid(n, w);
    Euclid(q, k);
    DivDiv(n, w, k);
    TurnedIs(q, k, p);
    Block(a, d, r, w, k, p, n, q);
    RotateIn(n, w, k, p, a);
  }

  // Only the digit of weight w changes.
  lemma RotateIs(n: nat, w: nat, k: nat, p: nat)
    requires w >= 1 && k >= 1 && p < k
    ensures w * k >= 1
    ensures var m := Rotate(n, w, k, p); m >= 0 && m / w == Turned(n / w, k, p) && m % w == n % w
  {
    RotateValue(n, w, k, p);
    DivMod(n % w, Turned(n / w, k, p), w);
    Monotone(0, Turned(n / w, k, p), w);
  }

  lemma Block(a: nat, d: nat, r: nat, w: nat, k: nat, p: nat, n: nat, q: nat)
    requires n == q * w + r && q == a * k + d && d < k && r < w && p < k
    ensures n + p * w >= a * (w * k) + w * k <==> d + p >= k
    ensures n + p * w == (q + p) * w + r && n + p * w - w * k == (q + p - k) * w + r
  {
    var m: int := q + p - k;
    Distribute(q, p, w);
    Distribute(m, k, w);
    assert w * k == k * w;
    TwoDigits(a, d + p, k, w, r);
    if d + p >= k { Monotone(k, d + p, w); } else {
      Monotone(d + p + 1, k, w);
      Distribute(d + p, 1, w);
    }
  }

  lemma DivLess(n: nat, m: nat, s: nat)
    requires s >= 1
    ensures n < m * s <==> n / s < m
  {
    assert n == n / s * s + n % s;
    if n / s < m {
      Monotone(n / s + 1, m, s);
      assert (n / s + 1) * s == n / s * s + s;
    } else {
      Monotone(m, n / s, s);
    }
  }

  // A turned digit stays below any multiple of its block.
  lemma RotateBelow(n: nat, w: nat, k: nat, p: nat, m: nat)
    requires w >= 1 && k >= 1 && p < k && n < m * (w * k)
    ensures w * k >= 1 && 0 <= Rotate(n, w, k, p) < m * (w * k)
    ensures Rotate(n, w, k, p) / (w * k) == n / (w * k)
  {
    RotateIs(n, w, k, p);
    TurnedIs(n / w, k, p);
    DivDiv(n, w, k);
    DivDiv(Rotate(n, w, k, p), w, k);
    DivLess(n, m, w * k);
    DivLess(Rotate(n, w, k, p), m, w * k);
  }
}
