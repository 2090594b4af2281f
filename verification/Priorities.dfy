// The priority vectors of the switch arbiter: least-recently-selected ones, which move a winner to the back,
// and round-robin ones, which start behind the last winner.

module Priorities {
  import opened Wiring

  // ---------- one priority vector ----------

  // The live element of highest priority.
  function First(l: seq<int>, live: int -> bool): Option<int> {
    if l == [] then None else if live(l[0]) then Some(l[0]) else First(l[1..], live)
  }

  function Remove(l: seq<int>, x: int): seq<int> {
    if l == [] then [] else if l[0] == x then l[1..] else [l[0]] + Remove(l[1..], x)
  }

  // x was just selected and becomes the last choice.
  function ToBack(l: seq<int>, x: int): seq<int> { Remove(l, x) + [x] }

  // V1_LRS_ORDER and P1_LRS_ORDER: how many elements come before x.
  function Order(l: seq<int>, x: int): nat {
    if l == [] || l[0] == x then 0 else 1 + Order(l[1..], x)
  }

  ghost predicate Perm(l: seq<int>, n: nat) {
    && |l| == n
    && (forall i :: 0 <= i < n ==> 0 <= l[i] < n)
    && (forall i, j :: 0 <= i < j < n ==> l[i] != l[j])
    && (forall x :: 0 <= x < n ==> x in l)
  }

  ghost predicate NoDup(l: seq<int>) { forall i, j :: 0 <= i < j < |l| ==> l[i] != l[j] }

  lemma {:induction false} FirstLives(l: seq<int>, live: int -> bool)
    ensures First(l, live).Some? ==> First(l, live).value in l && live(First(l, live).value)
  {
    if l != [] && !live(l[0]) { FirstLives(l[1..], live); }
  }

  lemma {:induction false} FirstBefore(l: seq<int>, live: int -> bool, y: int)
    requires y in l && live(y)
    ensures First(l, live).Some? && Order(l, First(l, live).value) <= Order(l, y)
  {
    if !live(l[0]) {
      assert y in l[1..];
      FirstBefore(l[1..], live, y);
      FirstLives(l[1..], live);
    }
  }

  lemma FirstIs(l: seq<int>, live: int -> bool)
    ensures First(l, live).None? <==> forall x :: x in l ==> !live(x)
    ensures First(l, live).Some? ==>
              var x := First(l, live).value;
              x in l && live(x) && forall y :: y in l && live(y) ==> Order(l, x) <= Order(l, y)
  {
    FirstLives(l, live);
    if First(l, live).None? {
      forall x | x in l ensures !live(x) {
        if live(x) { FirstBefore(l, live, x); }
      }
    } else {
      forall y | y in l && live(y) ensures Order(l, First(l, live).value) <= Order(l, y) { FirstBefore(l, live, y); }
    }
  }

  lemma {:induction false} OrderAt(l: seq<int>, x: int)
    requires x in l
    ensures Order(l, x) < |l| && l[Order(l, x)] == x && x !in l[..Order(l, x)]
  {
    if l[0] != x {
      assert x in l[1..];
      OrderAt(l[1..], x);
      assert l[..Order(l, x)] == [l[0]] + l[1..][..Order(l, x) - 1];
    }
  }

  lemma OrderInjective(l: seq<int>, x: int, y: int)
    requires x in l && y in l && Order(l, x) == Order(l, y)
    ensures x == y
  {
    OrderAt(l, x);
    OrderAt(l, y);
  }

  // Selecting one element drops it behind every other and moves up by one exactly those it was ahead of.
  lemma {:induction false} ToBackOrder(l: seq<int>, w: int, x: int)
    requires NoDup(l) && w in l && x in l && x != w
    ensures x in Remove(l, w) && |Remove(l, w)| == |l| - 1
    ensures Order(ToBack(l, w), x) == Order(l, x) - (if Order(l, w) < Order(l, x) then 1 else 0)
    ensures Order(Remove(l, w), x) == Order(ToBack(l, w), x)
  {
    assert l == [l[0]] + l[1..];
    if l[0] == w {
      OrderPrefix(l[1..], [w], x);
    } else if l[0] == x {
      assert w in l[1..];
      RemoveLength(l[1..], w);
      assert ToBack(l, w)[0] == x;
    } else {
      ToBackOrder(l[1..], w, x);
      assert Remove(l, w) == [l[0]] + Remove(l[1..], w);
      assert ToBack(l, w) == [l[0]] + ToBack(l[1..], w);
      assert ToBack(l, w)[1..] == ToBack(l[1..], w);
      assert Remove(l, w)[1..] == Remove(l[1..], w);
    }
  }

  lemma {:induction false} OrderPrefix(a: seq<int>, b: seq<int>, x: int)
    requires x in a
    ensures Order(a + b, x) == Order(a, x)
  {
    if a[0] != x {
      assert (a + b)[1..] == a[1..] + b;
      OrderPrefix(a[1..], b, x);
    } else {
      assert (a + b)[0] == x;
    }
  }

  lemma {:induction false} RemoveLength(l: seq<int>, w: int)
    requires w in l
    ensures |Remove(l, w)| == |l| - 1
  {
    if l[0] != w { RemoveLength(l[1..], w); }
  }

  // l without its element at p.
  function But(l: seq<int>, p: nat): seq<int>
    requires p < |l|
  {
    l[..p] + l[p + 1..]
  }

  lemma ButTail(l: seq<int>, p: nat)
    requires 0 < p < |l|
    ensures But(l, p) == [l[0]] + But(l[1..], p - 1)
  {
    assert l[..p] == [l[0]] + l[1..][..p - 1];
    assert l[p + 1..] == l[1..][p..];
  }

  lemma {:induction false} RemoveAt(l: seq<int>, w: int)
    requires w in l
    ensures Order(l, w) < |l| && Remove(l, w) == But(l, Order(l, w))
  {
    OrderAt(l, w);
    if l[0] != w {
      assert w in l[1..];
      RemoveAt(l[1..], w);
      ButTail(l, Order(l, w));
    }
  }

  lemma ToBackPerm(l: seq<int>, w: int, n: nat)
    requires Perm(l, n) && 0 <= w < n
    ensures Perm(ToBack(l, w), n)
  {
    OrderAt(l, w);
    RemoveAt(l, w);
    ButPerm(l, Order(l, w), n);
  }

  // Where an element stands after the one at p has moved to the end.
  lemma ButAt(l: seq<int>, p: nat, q: nat)
    requires p < |l| && q < |l|
    ensures var t := But(l, p) + [l[p]];
            |t| == |l| && t[q] == l[if q < p then q else if q == |l| - 1 then p else q + 1]
  {}

  lemma ButPerm(l: seq<int>, p: nat, n: nat)
    requires Perm(l, n) && p < n
    ensures Perm(But(l, p) + [l[p]], n)
  {
    var t := But(l, p) + [l[p]];
    forall q | 0 <= q < n ensures t[q] == l[if q < p then q else if q == n - 1 then p else q + 1] { ButAt(l, p, q); }
    forall x | 0 <= x < n ensures x in t {
      OrderAt(l, x);
      var q := Order(l, x);
      assert t[if q < p then q else if q == p then n - 1 else q - 1] == x;
    }
  }

  // ---------- round robin ----------

  // How a vector changes when an element is selected. The P:1 stage has a round robin of its own, since
  // grantGeneric calls RR_ORDER with a wrap-around that is one port short.
  datatype Policy = LeastRecent | RoundRobin | PortRoundRobin

  function Succ(w: int, n: int): int { if w == n - 1 then 0 else w + 1 }

  // The cyclic distance from start, which is the order of a round robin.
  function Distance(cur: int, start: int, n: int): int { if cur < start then cur - start + n else cur - start }

  // SwArb2Stage::RR_ORDER as grantGeneric calls it, with max_val one less than the number of ports.
  function RrOrder(cur: int, start: int, npc: int): int {
    if cur - start < 0 then cur - start + (npc - 1) else cur - start
  }

  // Because max_val is short by one, exactly the first and the last port tie, whenever the search does not
  // start at port 0; every other pair is ordered by its distance from the start.
  lemma RrTies(x: int, y: int, start: int, npc: int)
    requires 0 <= x < y < npc && 0 <= start < npc
    ensures RrOrder(x, start, npc) == RrOrder(y, start, npc) <==> start > 0 && x == 0 && y == npc - 1
    ensures !(start > 0 && x == 0 && y == npc - 1) ==>
              (RrOrder(x, start, npc) < RrOrder(y, start, npc) <==> Distance(x, start, npc) < Distance(y, start, npc))
  {}

  // Where an element stands when the search starts at s. The ports are scanned upwards, so port 0 wins the
  // tie with the last port.
  function Place(p: Policy, x: int, s: int, n: int): int {
    if p.PortRoundRobin? && s > 0 && x == 0 then n - 1 - s
    else if p.PortRoundRobin? && s > 0 && x == n - 1 then n - s
    else Distance(x, s, n)
  }

  // The element that stands at place i.
  function Standing(p: Policy, s: int, n: int, i: int): int {
    if p.PortRoundRobin? && s > 0 && i == n - 1 - s then 0
    else if p.PortRoundRobin? && s > 0 && i == n - s then n - 1
    else if s + i < n then s + i else s + i - n
  }

  // The priority vector of a round-robin counter.
  function Cycle(p: Policy, s: int, n: nat): seq<int> { seq(n, (i: nat) => Standing(p, s, n, i)) }

  lemma PlaceIs(p: Policy, s: int, n: nat, i: int)
    requires 0 <= s < n && 0 <= i < n
    ensures 0 <= Standing(p, s, n, i) < n && Place(p, Standing(p, s, n, i), s, n) == i
    ensures 0 <= Place(p, i, s, n) < n && Standing(p, s, n, Place(p, i, s, n)) == i
  {}

  lemma CyclePerm(p: Policy, s: int, n: nat)
    requires 0 <= s < n
    ensures Perm(Cycle(p, s, n), n)
  {
    var l := Cycle(p, s, n);
    forall i | 0 <= i < n ensures 0 <= l[i] < n && Place(p, l[i], s, n) == i { PlaceIs(p, s, n, i); }
    forall x | 0 <= x < n ensures x in l {
      PlaceIs(p, s, n, x);
      assert l[Place(p, x, s, n)] == x;
    }
  }

  lemma OrderIs(l: seq<int>, x: int, i: nat)
    requires i < |l| && l[i] == x && forall j :: 0 <= j < i ==> l[j] != x
    ensures Order(l, x) == i
  {
    if i > 0 {
      assert l == [l[0]] + l[1..];
      forall j | 0 <= j < i - 1 ensures l[1..][j] != x { assert l[1..][j] == l[j + 1]; }
      OrderIs(l[1..], x, i - 1);
    }
  }

  lemma CycleOrder(p: Policy, s: int, n: nat, x: int)
    requires 0 <= s < n && 0 <= x < n
    ensures Order(Cycle(p, s, n), x) == Place(p, x, s, n)
  {
    var l := Cycle(p, s, n);
    PlaceIs(p, s, n, x);
    var i := Place(p, x, s, n);
    forall j | 0 <= j < i ensures l[j] != x { PlaceIs(p, s, n, j); }
    OrderIs(l, x, i);
  }

  // ---------- bounded waiting at one arbiter ----------

  function Turned(p: Policy, l: seq<int>, w: int): seq<int> {
    if p.LeastRecent? then ToBack(l, w) else Cycle(p, Succ(w, |l|), |l|)
  }

  // A round with requests live: if there is a winner the vector turns.
  function Next(p: Policy, l: seq<int>, live: int -> bool): seq<int> {
    match First(l, live)
    case None => l
    case Some(w) => Turned(p, l, w)
  }

  lemma NextPerm(p: Policy, l: seq<int>, live: int -> bool, n: nat)
    requires Perm(l, n)
    ensures Perm(Next(p, l, live), n)
  {
    FirstIs(l, live);
    if First(l, live).Some? {
      var w := First(l, live).value;
      if p.LeastRecent? { ToBackPerm(l, w, n); } else { CyclePerm(p, Succ(w, n), n); }
    }
  }

  function After(p: Policy, l: seq<int>, rounds: seq<int -> bool>): seq<int>
    decreases |rounds|
  {
    if rounds == [] then l else After(p, Next(p, l, rounds[0]), rounds[1..])
  }

  // The rounds in which x asks but another element is selected.
  function Losses(p: Policy, l: seq<int>, rounds: seq<int -> bool>, x: int): nat
    decreases |rounds|
  {
    if rounds == [] then 0
    else
      (if rounds[0](x) && First(l, rounds[0]) != Some(x) then 1 else 0) +
      Losses(p, Next(p, l, rounds[0]), rounds[1..], x)
  }

  predicate EverWins(p: Policy, l: seq<int>, rounds: seq<int -> bool>, x: int)
    decreases |rounds|
  {
    rounds != [] && (First(l, rounds[0]) == Some(x) || EverWins(p, Next(p, l, rounds[0]), rounds[1..], x))
  }

  // Until it is selected, an element loses at most as often as there are elements ahead of it, whatever
  // the others do and however long it pauses in between.
  lemma {:induction false} BoundedLosses(l: seq<int>, n: nat, rounds: seq<int -> bool>, x: int)
    requires Perm(l, n) && 0 <= x < n && !EverWins(LeastRecent, l, rounds, x)
    ensures Losses(LeastRecent, l, rounds, x) + Order(After(LeastRecent, l, rounds), x) <= Order(l, x)
    ensures Order(l, x) < n
    decreases |rounds|
  {
    OrderAt(l, x);
    if rounds != [] {
      var live := rounds[0];
      FirstIs(l, live);
      if First(l, live).Some? {
        var w := First(l, live).value;
        ToBackPerm(l, w, n);
        ToBackOrder(l, w, x);
        if live(x) && Order(l, w) == Order(l, x) { OrderInjective(l, w, x); }
      }
      BoundedLosses(Next(LeastRecent, l, live), n, rounds[1..], x);
    }
  }

  ghost predicate AlwaysAsks(rounds: seq<int -> bool>, x: int) { forall i :: 0 <= i < |rounds| ==> rounds[i](x) }

  // The winner of a round is ahead of every other element that asks.
  lemma Winner(p: Policy, s: int, n: nat, live: int -> bool, x: int)
    requires 0 <= s < n && 0 <= x < n && live(x)
    ensures First(Cycle(p, s, n), live).Some?
    ensures var w := First(Cycle(p, s, n), live).value;
            0 <= w < n && live(w) && (w != x ==> Place(p, w, s, n) < Place(p, x, s, n))
  {
    var l := Cycle(p, s, n);
    CyclePerm(p, s, n);
    FirstIs(l, live);
    var w := First(l, live).value;
    CycleOrder(p, s, n, w);
    CycleOrder(p, s, n, x);
    if w != x && Order(l, w) == Order(l, x) { OrderInjective(l, w, x); }
  }

  // Except for the last port, losing brings an element nearer to the start of the search.
  lemma StepCloser(p: Policy, s: int, n: nat, w: int, x: int)
    requires !p.LeastRecent? && 0 <= s < n && 0 <= x < n && 0 <= w < n && Place(p, w, s, n) < Place(p, x, s, n)
    requires p.PortRoundRobin? ==> x != n - 1
    ensures Distance(x, Succ(w, n), n) < Distance(x, s, n)
  {}

  // An element that asks in every round is selected within as many rounds as its distance from the start,
  // and one; with the short wrap-around this holds for every port but the last.
  lemma {:induction false} RoundRobinWaits(p: Policy, s: int, n: nat, rounds: seq<int -> bool>, x: int)
    requires !p.LeastRecent? && 0 <= s < n && 0 <= x < n && (p.PortRoundRobin? ==> x != n - 1)
    requires AlwaysAsks(rounds, x) && !EverWins(p, Cycle(p, s, n), rounds, x)
    ensures |rounds| <= Distance(x, s, n) < n
    decreases |rounds|
  {
    if rounds != [] {
      var live := rounds[0];
      Winner(p, s, n, live, x);
      var w := First(Cycle(p, s, n), live).value;
      StepCloser(p, s, n, w, x);
      RoundRobinWaits(p, Succ(w, n), n, rounds[1..], x);
    }
  }

  // The last port is never selected while port 0 asks.
  lemma {:induction false} LastPortYields(s: int, n: nat, rounds: seq<int -> bool>)
    requires n >= 2 && 0 <= s < n && AlwaysAsks(rounds, 0)
    ensures !EverWins(PortRoundRobin, Cycle(PortRoundRobin, s, n), rounds, n - 1)
    decreases |rounds|
  {
    if rounds != [] {
      var live := rounds[0];
      Winner(PortRoundRobin, s, n, live, 0);
      var w := First(Cycle(PortRoundRobin, s, n), live).value;
      LastPortYields(Succ(w, n), n, rounds[1..]);
    }
  }

  ghost predicate Fair(n: nat, x: int) {
    forall s, rounds {:trigger EverWins(PortRoundRobin, Cycle(PortRoundRobin, s, n), rounds, x)} ::
      0 <= s < n && |rounds| >= n && AlwaysAsks(rounds, x) ==>
        EverWins(PortRoundRobin, Cycle(PortRoundRobin, s, n), rounds, x)
  }

  // So the P:1 round robin serves every port that keeps asking exactly when it is not the last of several.
  lemma PortRoundRobinFairIff(n: nat, x: int)
    requires 0 <= x < n
    ensures Fair(n, x) <==> n == 1 || x != n - 1
  {
    if n > 1 && x == n - 1 {
      var rounds := seq(n, _ => (y: int) => true);
      LastPortYields(0, n, rounds);
      assert AlwaysAsks(rounds, x);
    } else {
      forall s, rounds: seq<int -> bool> | 0 <= s < n && |rounds| >= n && AlwaysAsks(rounds, x)
        ensures EverWins(PortRoundRobin, Cycle(PortRoundRobin, s, n), rounds, x) {
        if n > 1 && !EverWins(PortRoundRobin, Cycle(PortRoundRobin, s, n), rounds, x) {
          RoundRobinWaits(PortRoundRobin, s, n, rounds, x);
        }
        if n == 1 { Winner(PortRoundRobin, s, n, rounds[0], x); }
      }
    }
  }
}
