// The queue of the VC arbiter and the deletion of its granted requests by shifting indices.

module VCArbs {
  import opened Wiring

  ghost predicate Ascending(d: seq<nat>, n: nat) {
    && (forall i :: 0 <= i < |d| ==> d[i] < n)
    && (forall i, j :: 0 <= i < j < |d| ==> d[i] < d[j])
  }

  // The requests among the first n whose positions are not in d, in order.
  function Kept<R>(q: seq<R>, d: seq<nat>, n: nat): seq<R>
    requires n <= |q|
  {
    if n == 0 then [] else Kept(q, d, n - 1) + (if n - 1 in d then [] else [q[n - 1]])
  }

  lemma {:induction false} KeptGap<R>(q: seq<R>, d: seq<nat>, m: nat, i: nat)
    requires m <= i <= |q| && forall x :: m <= x < i ==> x !in d
    ensures Kept(q, d, i) == Kept(q, d, m) + q[m..i]
  {
    if m < i {
      KeptGap(q, d, m, i - 1);
      assert q[m..i] == q[m..i - 1] + [q[i - 1]];
    }
  }

  // Positions behind those decided so far do not matter.
  lemma {:induction false} KeptPrefix<R>(q: seq<R>, d: seq<nat>, x: nat, n: nat)
    requires n <= |q| && n <= x
    ensures Kept(q, d + [x], n) == Kept(q, d, n)
  {
    if n > 0 { KeptPrefix(q, d, x, n - 1); }
  }

  lemma NotBetween(d: seq<nat>, len: nat, n: nat)
    requires Ascending(d, len) && n <= |d|
    ensures var m := if n == 0 then 0 else d[n - 1] + 1;
            forall x :: m <= x < (if n < |d| then d[n] else len) ==> x !in d
  {
    var m := if n == 0 then 0 else d[n - 1] + 1;
    forall x | m <= x < (if n < |d| then d[n] else len) ensures x !in d {
      forall i | 0 <= i < |d| ensures d[i] != x {
        if i < n - 1 { assert d[i] < d[n - 1]; }
        if i > n { assert d[n] < d[i]; }
      }
    }
  }

  // The queue after the first n erasures: positions up to the last one are done.
  function Done(d: seq<nat>, n: nat): nat
    requires n <= |d|
  {
    if n == 0 then 0 else d[n - 1] + 1
  }

  ghost predicate Erased<R>(q: seq<R>, d: seq<nat>, n: nat, cur: seq<R>)
    requires n <= |d|
  {
    var m := Done(d, n);
    m <= |q| && |Kept(q, d, m)| == m - n && cur == Kept(q, d, m) + q[m..]
  }

  lemma {:induction false} EraseStep<R>(q: seq<R>, d: seq<nat>, n: nat, cur: seq<R>)
    requires Ascending(d, |q|) && n < |d| && Erased(q, d, n, cur)
    ensures n <= d[n] && d[n] - n < |cur|
    ensures Erased(q, d, n + 1, cur[..d[n] - n] + cur[d[n] - n + 1..])
  {
    var m, x := Done(d, n), d[n];
    var a := Kept(q, d, m);
    NotBetween(d, |q|, n);
    assert n > 0 ==> d[n - 1] < x;
    KeptGap(q, d, m, x);
    assert cur == a + q[m..x] + [q[x]] + q[x + 1..];
    assert cur[..x - n] == a + q[m..x];
    assert cur[x - n + 1..] == q[x + 1..];
    assert Kept(q, d, x + 1) == a + q[m..x];
  }

  lemma {:induction false} EraseEnd<R>(q: seq<R>, d: seq<nat>, cur: seq<R>)
    requires Ascending(d, |q|) && Erased(q, d, |d|, cur)
    ensures cur == Kept(q, d, |q|)
  {
    var m := Done(d, |d|);
    NotBetween(d, |q|, |d|);
    KeptGap(q, d, m, |q|);
    assert q[m..|q|] == q[m..];
  }

  // Positions i and j hold different input VCs.
  ghost predicate Apart<A>(q: seq<(VC, A)>, i: int, j: int) { 0 <= i < j < |q| ==> q[i].0 != q[j].0 }

  ghost predicate AllApart<A>(q: seq<(VC, A)>) { forall i, j {:trigger Apart(q, i, j)} :: Apart(q, i, j) }

  class VCArbFCFS {
    const id: nat                       // the router the arbiter belongs to
    var reqQ: seq<(VC, int)>            // m_reqQ

    constructor (id: nat)
      ensures this.id == id && reqQ == []
    {
      this.id, reqQ := id, [];
    }

    method Add(k: VC, outPc: int)
      modifies this
      ensures reqQ == old(reqQ) + [(k, outPc)]
    {
      reqQ := reqQ + [(k, outPc)];
    }

    // The deletion at the end of grant(): each erasure shifts the positions of the later ones by one.
    method DelGranted(d: seq<nat>)
      requires Ascending(d, |reqQ|)
      modifies this
      ensures reqQ == Kept(old(reqQ), d, |old(reqQ)|)
    {
      ghost var q := reqQ;
      for n := 0 to |d|
        invariant Erased(q, d, n, reqQ)
      {
        EraseStep(q, d, n, reqQ);
        reqQ := reqQ[..d[n] - n] + reqQ[d[n] - n + 1..];
      }
      EraseEnd(q, d, reqQ);
    }
  }
}
