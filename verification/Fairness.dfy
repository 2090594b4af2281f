// When the two stages of the switch arbiter together serve every input VC that keeps asking.

module Fairness {
  import opened Wiring
  import opened Priorities
  import opened Arbiter

  // ---------- the priority vectors that occur ----------

  function Identity(n: nat): seq<int> { seq(n, (i: nat) => i as int) }

  // The priorities of a new arbiter.
  function FirstArb(vp: Policy, pp: Policy, npc: nat, nvc: nat): Arb {
    Arb(vp, seq(npc, _ => Identity(nvc)), pp, seq(npc, _ => Identity(npc)))
  }

  // A round-robin vector is that of some counter.
  ghost predicate ProperVector(p: Policy, l: seq<int>, n: nat) {
    Perm(l, n) && (!p.LeastRecent? ==> exists s :: 0 <= s < n && l == Cycle(p, s, n))
  }

  ghost predicate Proper(a: Arb, npc: nat, nvc: nat) {
    && |a.v1| == npc && |a.p1| == npc
    && (forall pc {:trigger a.v1[pc]} :: 0 <= pc < npc ==> ProperVector(a.vp, a.v1[pc], nvc))
    && (forall op {:trigger a.p1[op]} :: 0 <= op < npc ==> ProperVector(a.pp, a.p1[op], npc))
  }

  lemma NextProper(p: Policy, l: seq<int>, live: int -> bool, n: nat)
    requires ProperVector(p, l, n)
    ensures ProperVector(p, Next(p, l, live), n)
  {
    NextPerm(p, l, live, n);
    FirstIs(l, live);
    if !p.LeastRecent? && First(l, live).Some? {
      var s := Succ(First(l, live).value, n);
      assert 0 <= s < n && Next(p, l, live) == Cycle(p, s, n);
    }
  }

  lemma RotateProper(a: Arb, e: Env, npc: nat, nvc: nat)
    requires Proper(a, npc, nvc)
    ensures Proper(Rotate(a, e), npc, nvc)
  {
    forall pc | 0 <= pc < npc ensures ProperVector(a.vp, Rotate(a, e).v1[pc], nvc) {
      NextProper(a.vp, a.v1[pc], v => e.asks(VC(pc, v)), nvc);
    }
    forall op | 0 <= op < npc ensures ProperVector(a.pp, Rotate(a, e).p1[op], npc) {
      NextProper(a.pp, a.p1[op], pc => Competes(a, e, op, pc), npc);
    }
  }

  lemma IdentityProper(p: Policy, n: nat)
    requires n >= 1
    ensures ProperVector(p, Identity(n), n)
    ensures forall x :: 0 <= x < n ==> Order(Identity(n), x) == x
  {
    var l := Identity(n);
    forall x | 0 <= x < n ensures x in l && Order(l, x) == x {
      assert l[x] == x;
      OrderIs(l, x, x);
    }
    assert l == Cycle(p, 0, n);
  }

  lemma FirstProper(vp: Policy, pp: Policy, npc: nat, nvc: nat)
    requires npc >= 1 && nvc >= 1
    ensures Proper(FirstArb(vp, pp, npc, nvc), npc, nvc)
  {
    IdentityProper(vp, nvc);
    IdentityProper(pp, npc);
  }

  // ---------- service ----------

  predicate Asker(e: Env, npc: nat, nvc: nat, k: VC) { 0 <= k.pc < npc && 0 <= k.vc < nvc && e.asks(k) }

  // Every request is for an output VC that its input VC holds, and no two input VCs hold the same one.
  ghost predicate HousedBy(e: Env, npc: nat, nvc: nat, ov: VC -> int) {
    && (forall k {:trigger ov(k)} :: Asker(e, npc, nvc, k) ==> 0 <= e.out(k) < npc && 0 <= ov(k) < nvc)
    && (forall k, k' {:trigger ov(k), ov(k')} ::
          Asker(e, npc, nvc, k) && Asker(e, npc, nvc, k') && k != k' && e.out(k) == e.out(k') ==> ov(k) != ov(k'))
  }

  ghost predicate Housed(e: Env, npc: nat, nvc: nat) { exists ov :: HousedBy(e, npc, nvc, ov) }

  ghost predicate AllHoused(rounds: seq<Env>, npc: nat, nvc: nat) {
    forall i {:trigger rounds[i]} :: 0 <= i < |rounds| ==> Housed(rounds[i], npc, nvc)
  }

  // In every round k asks for output port op and could be served.
  ghost predicate AlwaysWants(rounds: seq<Env>, k: VC, op: int) {
    forall i {:trigger rounds[i]} :: 0 <= i < |rounds| ==>
      rounds[i].asks(k) && rounds[i].open(k) && rounds[i].out(k) == op
  }

  // Some number of rounds is enough for any input VC that keeps wanting any output port, whatever the
  // priorities are at first and whatever the other input VCs do.
  ghost predicate Serves(vp: Policy, pp: Policy, npc: nat, nvc: nat, bound: nat) {
    forall a, k: VC, op, rounds {:trigger EverGranted(a, rounds, k, npc), AlwaysWants(rounds, k, op)} ::
      Proper(a, npc, nvc) && a.vp == vp && a.pp == pp && 0 <= k.pc < npc && 0 <= k.vc < nvc && 0 <= op < npc
      && AllHoused(rounds, npc, nvc) && AlwaysWants(rounds, k, op) && |rounds| >= bound
      ==> EverGranted(a, rounds, k, npc)
  }

  ghost predicate TwoStageFair(vp: Policy, pp: Policy, npc: nat, nvc: nat) {
    exists bound {:trigger Serves(vp, pp, npc, nvc, bound)} :: Serves(vp, pp, npc, nvc, bound)
  }

  // A new arbiter never serves an input VC that wants op in every one of these rounds.
  ghost predicate Starves(vp: Policy, pp: Policy, npc: nat, nvc: nat, es: nat -> Env, k: VC, op: int) {
    && 0 <= k.pc < npc && 0 <= k.vc < nvc && 0 <= op < npc
    && forall n: nat {:trigger es(n)} ::
         && Housed(es(n), npc, nvc) && es(n).asks(k) && es(n).open(k) && es(n).out(k) == op
         && k !in Grants(Rounds(FirstArb(vp, pp, npc, nvc), es, n), es(n), npc)
  }

  // ---------- enough service ----------

  // Losing brings an element that asks nearer to the front, except under the P:1 round robin.
  lemma LosingHelps(p: Policy, l: seq<int>, live: int -> bool, x: int, n: nat)
    requires ProperVector(p, l, n) && !p.PortRoundRobin? && 0 <= x < n && live(x) && First(l, live) != Some(x)
    ensures Order(Next(p, l, live), x) < Order(l, x)
  {
    FirstIs(l, live);
    var w := First(l, live).value;
    if Order(l, w) == Order(l, x) { OrderInjective(l, w, x); }
    if p.LeastRecent? {
      ToBackOrder(l, w, x);
    } else {
      var s :| 0 <= s < n && l == Cycle(p, s, n);
      Winner(p, s, n, live, x);
      StepCloser(p, s, n, w, x);
      CycleOrder(p, s, n, x);
      CycleOrder(p, Succ(w, n), n, x);
    }
  }

  // The first of a single element is that element.
  lemma OnlyOne(l: seq<int>, live: int -> bool)
    requires Perm(l, 1) && live(0)
    ensures First(l, live) == Some(0)
  {
    FirstIs(l, live);
    assert 0 in l;
  }

  // With one VC every output port has one requester at most, which is served at once.
  lemma OneVCServes(a: Arb, npc: nat, rounds: seq<Env>, k: VC, op: int)
    requires Proper(a, npc, 1) && 0 <= k.pc < npc && k.vc == 0 && 0 <= op < npc
    requires AllHoused(rounds, npc, 1) && AlwaysWants(rounds, k, op) && rounds != []
    ensures EverGranted(a, rounds, k, npc)
  {
    var e := rounds[0];
    OnlyOne(a.v1[k.pc], v => e.asks(VC(k.pc, v)));
    assert Competes(a, e, op, k.pc);
    FirstIs(a.p1[op], pc => Competes(a, e, op, pc));
    assert k.pc in a.p1[op];
    var w := P1Pick(a, e, op).value;
    FirstIs(a.v1[w], v => e.asks(VC(w, v)));
    Lone(e, npc, k, VC(w, V1Pick(a, e, w).value));
    GrantsAre(a, e, npc, 1, npc);
    assert Granted(a, e, k);
  }

  lemma Lone(e: Env, npc: nat, k: VC, k': VC)
    requires Housed(e, npc, 1) && Asker(e, npc, 1, k) && Asker(e, npc, 1, k') && e.out(k) == e.out(k')
    ensures k == k'
  {
    var ov :| HousedBy(e, npc, 1, ov);
    assert 0 <= ov(k) < 1 && 0 <= ov(k') < 1;
  }

  // With one port the P:1 stage has nothing to decide.
  lemma {:induction false} OnePortServes(a: Arb, nvc: nat, rounds: seq<Env>, k: VC)
    requires Proper(a, 1, nvc) && !a.vp.PortRoundRobin? && k.pc == 0 && 0 <= k.vc < nvc
    requires AlwaysWants(rounds, k, 0) && |rounds| > Order(a.v1[0], k.vc)
    ensures EverGranted(a, rounds, k, 1)
    decreases |rounds|
  {
    var e := rounds[0];
    if V1Pick(a, e, 0) == Some(k.vc) {
      assert Competes(a, e, 0, 0);
      OnlyOne(a.p1[0], pc => Competes(a, e, 0, pc));
      GrantsAre(a, e, 1, nvc, 1);
      assert Granted(a, e, k);
    } else {
      LosingHelps(a.vp, a.v1[0], v => e.asks(VC(0, v)), k.vc, nvc);
      RotateProper(a, e, 1, nvc);
      OnePortServes(Rotate(a, e), nvc, rounds[1..], k);
    }
  }

  // ---------- starvation ----------

  // Input VCs that ask for output port 0.
  function Rivals(ks: set<VC>): Env { Env(k => k in ks, _ => 0, _ => true) }

  // An input VC that is not the winner of both its stages is not granted.
  lemma NotGranted(a: Arb, e: Env, npc: nat, nvc: nat, k: VC)
    requires ValidArb(a, npc, nvc) && !Granted(a, e, k)
    ensures k !in Grants(a, e, npc)
  {
    GrantsAre(a, e, npc, nvc, npc);
  }

  lemma ProperValid(a: Arb, npc: nat, nvc: nat)
    requires Proper(a, npc, nvc)
    ensures ValidArb(a, npc, nvc)
  {}

  // x comes before y.
  predicate Ahead(l: seq<int>, x: int, y: int) { Order(l, x) < Order(l, y) }

  // A winner falls behind every other element.
  lemma WinnerLast(p: Policy, l: seq<int>, w: int, x: int, n: nat)
    requires Perm(l, n) && !p.PortRoundRobin? && 0 <= w < n && 0 <= x < n && x != w
    ensures Ahead(Turned(p, l, w), x, w)
  {
    if p.LeastRecent? {
      var m := ToBack(l, w);
      ToBackPerm(l, w, n);
      OrderAt(m, x);
      OrderAt(m, w);
      assert m[n - 1] == w;
    } else {
      CycleOrder(p, Succ(w, n), n, x);
      CycleOrder(p, Succ(w, n), n, w);
    }
  }

  // If only x and y ask, the one ahead is selected and falls behind the other.
  lemma Alternate(p: Policy, l: seq<int>, live: int -> bool, n: nat, x: int, y: int)
    requires Perm(l, n) && !p.PortRoundRobin? && 0 <= x < n && 0 <= y < n && x != y
    requires forall z :: 0 <= z < n ==> (live(z) <==> z == x || z == y)
    ensures First(l, live) == Some(if Ahead(l, x, y) then x else y)
    ensures Ahead(Next(p, l, live), x, y) <==> !Ahead(l, x, y)
  {
    FirstIs(l, live);
    assert x in l && y in l;
    if Order(l, x) == Order(l, y) { OrderInjective(l, x, y); }
    var w := First(l, live).value;
    WinnerLast(p, l, w, x + y - w, n);
  }

  // Both stages are about to choose the first, or both the second, of their rivals.
  ghost predicate InStep(a: Arb) {
    |a.v1| > 0 && |a.p1| > 0 && (Ahead(a.v1[0], 0, 1) <==> Ahead(a.p1[0], 0, 1))
  }

  // Two input VCs of port 0 and one of port 1.
  const RIVALS := {VC(0, 0), VC(0, 1), VC(1, 0)}

  function Constant(e: Env): nat -> Env { _ => e }

  lemma RivalsHoused(npc: nat, nvc: nat)
    requires npc >= 2 && nvc >= 3
    ensures Housed(Rivals(RIVALS), npc, nvc)
  {
    assert HousedBy(Rivals(RIVALS), npc, nvc, k => if k == VC(0, 0) then 0 else if k == VC(0, 1) then 1 else 2);
  }

  lemma RivalsRound(a: Arb, npc: nat, nvc: nat)
    requires Proper(a, npc, nvc) && npc >= 2 && nvc >= 2 && !a.vp.PortRoundRobin? && a.pp.LeastRecent? && InStep(a)
    ensures InStep(Rotate(a, Rivals(RIVALS))) && !Granted(a, Rivals(RIVALS), VC(0, 1))
  {
    var e := Rivals(RIVALS);
    Alternate(a.vp, a.v1[0], v => e.asks(VC(0, v)), nvc, 0, 1);
    forall pc | 0 <= pc < npc ensures Competes(a, e, 0, pc) <==> pc == 0 || pc == 1 {
      FirstIs(a.v1[pc], v => e.asks(VC(pc, v)));
      assert 0 in a.v1[pc];
    }
    Alternate(a.pp, a.p1[0], pc => Competes(a, e, 0, pc), npc, 0, 1);
  }

  // The V:1 priority of a port turns even when its winner then loses the output port. Under LRS in the P:1
  // stage both stages stay in step, and the second of the two VCs of port 0 is never granted.
  lemma {:induction false} RivalsInStep(vp: Policy, npc: nat, nvc: nat, n: nat)
    requires npc >= 2 && nvc >= 2 && !vp.PortRoundRobin?
    ensures var a := Rounds(FirstArb(vp, LeastRecent, npc, nvc), Constant(Rivals(RIVALS)), n);
            Proper(a, npc, nvc) && a.vp == vp && a.pp == LeastRecent && InStep(a)
  {
    if n == 0 {
      FirstProper(vp, LeastRecent, npc, nvc);
      IdentityProper(vp, nvc);
      IdentityProper(LeastRecent, npc);
    } else {
      RivalsInStep(vp, npc, nvc, n - 1);
      var a := Rounds(FirstArb(vp, LeastRecent, npc, nvc), Constant(Rivals(RIVALS)), n - 1);
      RivalsRound(a, npc, nvc);
      RotateProper(a, Rivals(RIVALS), npc, nvc);
    }
  }

  // With three VCs it takes three input VCs that never stop asking ...
  lemma StarvesByLRS(vp: Policy, npc: nat, nvc: nat)
    requires npc >= 2 && nvc >= 3 && !vp.PortRoundRobin?
    ensures Starves(vp, LeastRecent, npc, nvc, Constant(Rivals(RIVALS)), VC(0, 1), 0)
  {
    var es := Constant(Rivals(RIVALS));
    RivalsHoused(npc, nvc);
    forall n: nat ensures VC(0, 1) !in Grants(Rounds(FirstArb(vp, LeastRecent, npc, nvc), es, n), es(n), npc) {
      var a := Rounds(FirstArb(vp, LeastRecent, npc, nvc), es, n);
      RivalsInStep(vp, npc, nvc, n);
      RivalsRound(a, npc, nvc);
      ProperValid(a, npc, nvc);
      NotGranted(a, Rivals(RIVALS), npc, nvc, VC(0, 1));
    }
  }

  // ... and with two, one such input VC and two others that ask in turns.
  const AT_HOME := {VC(0, 0), VC(0, 1)}
  const AWAY := {VC(0, 1), VC(1, 0)}

  function Turn(home: bool): Env { Rivals(if home then AT_HOME else AWAY) }

  predicate Home(n: nat) { n == 0 || !Home(n - 1) }

  function InTurns(): nat -> Env { (n: nat) => Turn(Home(n)) }

  lemma TurnsHoused(npc: nat, nvc: nat, n: nat)
    requires npc >= 2 && nvc >= 2
    ensures Housed(InTurns()(n), npc, nvc)
  {
    assert HousedBy(InTurns()(n), npc, nvc, k => if k == VC(0, 1) then 1 else 0);
  }

  // The other VC of port 0 is selected by both stages, which leaves port 0 behind port 1.
  lemma HomeRound(a: Arb, npc: nat, nvc: nat)
    requires Proper(a, npc, nvc) && npc >= 2 && nvc >= 2 && !a.vp.PortRoundRobin? && a.pp.LeastRecent?
    requires Ahead(a.v1[0], 0, 1)
    ensures !Granted(a, Rivals(AT_HOME), VC(0, 1)) && Ahead(Rotate(a, Rivals(AT_HOME)).p1[0], 1, 0)
  {
    var e := Rivals(AT_HOME);
    Alternate(a.vp, a.v1[0], v => e.asks(VC(0, v)), nvc, 0, 1);
    forall pc | 0 <= pc < npc ensures Competes(a, e, 0, pc) <==> pc == 0 { FirstIs(a.v1[pc], v => e.asks(VC(pc, v))); }
    OnlyLive(a.p1[0], pc => Competes(a, e, 0, pc), npc, 0);
    WinnerLast(a.pp, a.p1[0], 0, 1, npc);
  }

  // VC 1 of port 0 is selected by its port, but port 1 by the output port.
  lemma AwayRound(a: Arb, npc: nat, nvc: nat)
    requires Proper(a, npc, nvc) && npc >= 2 && nvc >= 2 && !a.vp.PortRoundRobin? && a.pp.LeastRecent?
    requires Ahead(a.p1[0], 1, 0)
    ensures !Granted(a, Rivals(AWAY), VC(0, 1)) && Ahead(Rotate(a, Rivals(AWAY)).v1[0], 0, 1)
  {
    var e := Rivals(AWAY);
    OnlyLive(a.v1[0], v => e.asks(VC(0, v)), nvc, 1);
    WinnerLast(a.vp, a.v1[0], 1, 0, nvc);
    OnlyLive(a.v1[1], v => e.asks(VC(1, v)), nvc, 0);
    forall pc | 0 <= pc < npc ensures Competes(a, e, 0, pc) <==> pc == 0 || pc == 1 {
      FirstIs(a.v1[pc], v => e.asks(VC(pc, v)));
    }
    Alternate(a.pp, a.p1[0], pc => Competes(a, e, 0, pc), npc, 0, 1);
  }

  lemma OnlyLive(l: seq<int>, live: int -> bool, n: nat, x: int)
    requires Perm(l, n) && 0 <= x < n && forall z :: 0 <= z < n ==> (live(z) <==> z == x)
    ensures First(l, live) == Some(x)
  {
    FirstIs(l, live);
    assert x in l;
  }

  // Before a round of the others at home, or away.
  ghost predicate Passed(a: Arb, vp: Policy, npc: nat, nvc: nat, home: bool) {
    && npc >= 2 && nvc >= 2 && !vp.PortRoundRobin? && Proper(a, npc, nvc) && a.vp == vp && a.pp == LeastRecent
    && (if home then Ahead(a.v1[0], 0, 1) else Ahead(a.p1[0], 1, 0))
  }

  lemma TurnsRound(a: Arb, vp: Policy, npc: nat, nvc: nat, home: bool)
    requires Passed(a, vp, npc, nvc, home)
    ensures Passed(Rotate(a, Turn(home)), vp, npc, nvc, !home) && !Granted(a, Turn(home), VC(0, 1))
  {
    if home { HomeRound(a, npc, nvc); } else { AwayRound(a, npc, nvc); }
    RotateProper(a, Turn(home), npc, nvc);
  }

  lemma {:induction false} TurnsRun(vp: Policy, npc: nat, nvc: nat, n: nat)
    requires npc >= 2 && nvc >= 2 && !vp.PortRoundRobin?
    ensures Passed(Rounds(FirstArb(vp, LeastRecent, npc, nvc), InTurns(), n), vp, npc, nvc, Home(n))
  {
    if n == 0 {
      FirstPassed(vp, npc, nvc);
    } else {
      TurnsRun(vp, npc, nvc, n - 1);
      var first := FirstArb(vp, LeastRecent, npc, nvc);
      TurnsNext(Rounds(first, InTurns(), n - 1), vp, npc, nvc, n, Rounds(first, InTurns(), n));
    }
  }

  lemma TurnsNext(a: Arb, vp: Policy, npc: nat, nvc: nat, n: nat, b: Arb)
    requires n > 0 && Passed(a, vp, npc, nvc, Home(n - 1)) && b == Rotate(a, InTurns()(n - 1))
    ensures Passed(b, vp, npc, nvc, Home(n))
  {
    TurnsRound(a, vp, npc, nvc, Home(n - 1));
  }

  lemma FirstPassed(vp: Policy, npc: nat, nvc: nat)
    requires npc >= 2 && nvc >= 2 && !vp.PortRoundRobin?
    ensures Passed(FirstArb(vp, LeastRecent, npc, nvc), vp, npc, nvc, true)
  {
    FirstProper(vp, LeastRecent, npc, nvc);
    IdentityProper(vp, nvc);
  }

  lemma StarvesByTurns(vp: Policy, npc: nat, nvc: nat)
    requires npc >= 2 && nvc >= 2 && !vp.PortRoundRobin?
    ensures Starves(vp, LeastRecent, npc, nvc, InTurns(), VC(0, 1), 0)
  {
    var es := InTurns();
    forall n: nat
      ensures Housed(es(n), npc, nvc)
      ensures VC(0, 1) !in Grants(Rounds(FirstArb(vp, LeastRecent, npc, nvc), es, n), es(n), npc)
    {
      var a := Rounds(FirstArb(vp, LeastRecent, npc, nvc), es, n);
      TurnsHoused(npc, nvc, n);
      TurnsRun(vp, npc, nvc, n);
      TurnsRound(a, vp, npc, nvc, Home(n));
      ProperValid(a, npc, nvc);
      NotGranted(a, es(n), npc, nvc, VC(0, 1));
    }
  }

  // The first and the last port.
  function Ends(npc: nat): set<VC> { {VC(0, 0), VC(npc - 1, 0)} }

  lemma EndsHoused(npc: nat, nvc: nat)
    requires npc >= 2 && nvc >= 2
    ensures Housed(Rivals(Ends(npc)), npc, nvc)
  {
    assert HousedBy(Rivals(Ends(npc)), npc, nvc, k => if k == VC(0, 0) then 0 else 1);
  }

  lemma EndsRound(a: Arb, npc: nat, nvc: nat)
    requires Proper(a, npc, nvc) && npc >= 2 && nvc >= 1 && a.pp.PortRoundRobin?
    ensures !Granted(a, Rivals(Ends(npc)), VC(npc - 1, 0))
  {
    var e := Rivals(Ends(npc));
    var s :| 0 <= s < npc && a.p1[0] == Cycle(a.pp, s, npc);
    FirstIs(a.v1[0], v => e.asks(VC(0, v)));
    assert 0 in a.v1[0];
    Winner(a.pp, s, npc, pc => Competes(a, e, 0, pc), 0);
  }

  lemma {:induction false} StaysProper(a: Arb, es: nat -> Env, npc: nat, nvc: nat, n: nat)
    requires Proper(a, npc, nvc)
    ensures Proper(Rounds(a, es, n), npc, nvc) && Rounds(a, es, n).vp == a.vp && Rounds(a, es, n).pp == a.pp
  {
    if n > 0 {
      StaysProper(a, es, npc, nvc, n - 1);
      RotateProper(Rounds(a, es, n - 1), es(n - 1), npc, nvc);
    }
  }

  // Under the P:1 round robin the last port yields to port 0.
  lemma StarvesByRR(vp: Policy, npc: nat, nvc: nat)
    requires npc >= 2 && nvc >= 2
    ensures Starves(vp, PortRoundRobin, npc, nvc, Constant(Rivals(Ends(npc))), VC(npc - 1, 0), 0)
  {
    var first := FirstArb(vp, PortRoundRobin, npc, nvc);
    var es := Constant(Rivals(Ends(npc)));
    FirstProper(vp, PortRoundRobin, npc, nvc);
    EndsHoused(npc, nvc);
    forall n: nat ensures VC(npc - 1, 0) !in Grants(Rounds(first, es, n), es(n), npc) {
      StaysProper(first, es, npc, nvc, n);
      EndsRound(Rounds(first, es, n), npc, nvc);
      ProperValid(Rounds(first, es, n), npc, nvc);
      NotGranted(Rounds(first, es, n), es(n), npc, nvc, VC(npc - 1, 0));
    }
  }

  // ---------- when the two stages serve everyone ----------

  function From(es: nat -> Env, from: nat, n: nat): (r: seq<Env>)
    ensures |r| == n && forall i :: 0 <= i < n ==> r[i] == es(from + i)
  {
    seq(n, (i: nat) => es(from + i))
  }

  lemma FromTail(es: nat -> Env, from: nat, n: nat)
    requires n > 0
    ensures From(es, from, n)[1..] == From(es, from + 1, n - 1)
  {}

  lemma {:induction false} NeverGranted(a: Arb, es: nat -> Env, npc: nat, k: VC, from: nat, n: nat)
    requires |a.p1| == npc && forall j: nat {:trigger es(j)} :: k !in Grants(Rounds(a, es, j), es(j), npc)
    ensures !EverGranted(Rounds(a, es, from), From(es, from, n), k, npc)
    decreases n
  {
    if n > 0 {
      FromTail(es, from, n);
      NeverGranted(a, es, npc, k, from + 1, n - 1);
      assert Rounds(a, es, from + 1) == Rotate(Rounds(a, es, from), es(from));
    }
  }

  // An arbiter that starves someone serves not everyone.
  lemma StarvesUnfair(vp: Policy, pp: Policy, npc: nat, nvc: nat, es: nat -> Env, k: VC, op: int)
    requires npc >= 1 && nvc >= 1 && Starves(vp, pp, npc, nvc, es, k, op)
    ensures !TwoStageFair(vp, pp, npc, nvc)
  {
    var first := FirstArb(vp, pp, npc, nvc);
    FirstProper(vp, pp, npc, nvc);
    forall bound: nat ensures !Serves(vp, pp, npc, nvc, bound) {
      var rounds := From(es, 0, bound);
      NeverGranted(first, es, npc, k, 0, bound);
      assert Rounds(first, es, 0) == first;
      assert AllHoused(rounds, npc, nvc);
      assert AlwaysWants(rounds, k, op) && !EverGranted(first, rounds, k, npc);
    }
  }

  lemma ServesOneVC(vp: Policy, pp: Policy, npc: nat)
    ensures Serves(vp, pp, npc, 1, 1)
  {
    forall a, k: VC, op, rounds | Proper(a, npc, 1) && a.vp == vp && a.pp == pp && 0 <= k.pc < npc
      && 0 <= k.vc < 1 && 0 <= op < npc && AllHoused(rounds, npc, 1) && AlwaysWants(rounds, k, op) && |rounds| >= 1
      ensures EverGranted(a, rounds, k, npc) {
      OneVCServes(a, npc, rounds, k, op);
    }
  }

  lemma ServesOnePort(vp: Policy, pp: Policy, nvc: nat)
    requires !vp.PortRoundRobin?
    ensures Serves(vp, pp, 1, nvc, nvc)
  {
    forall a, k: VC, op, rounds | Proper(a, 1, nvc) && a.vp == vp && a.pp == pp && 0 <= k.pc < 1
      && 0 <= k.vc < nvc && 0 <= op < 1 && AlwaysWants(rounds, k, op) && |rounds| >= nvc
      ensures EverGranted(a, rounds, k, 1) {
      OrderAt(a.v1[0], k.vc);
      OnePortServes(a, nvc, rounds, k);
    }
  }

  // For the configurations of the program: each stage least recently selected or round robin. Where the
  // arbiter is not fair it starves an input VC from its first round on.
  lemma TwoStageFairIff(vp: Policy, pp: Policy, npc: nat, nvc: nat)
    requires npc >= 1 && nvc >= 1 && !vp.PortRoundRobin? && !pp.RoundRobin?
    ensures TwoStageFair(vp, pp, npc, nvc) <==> npc == 1 || nvc == 1
    ensures TwoStageFair(vp, pp, npc, nvc) <==> !exists es, k, op :: Starves(vp, pp, npc, nvc, es, k, op)
  {
    if npc == 1 {
      ServesOnePort(vp, pp, nvc);
    } else if nvc == 1 {
      ServesOneVC(vp, pp, npc);
    } else if pp.LeastRecent? {
      StarvesByTurns(vp, npc, nvc);
    } else {
      StarvesByRR(vp, npc, nvc);
    }
    forall es, k, op | Starves(vp, pp, npc, nvc, es, k, op) ensures !TwoStageFair(vp, pp, npc, nvc) {
      StarvesUnfair(vp, pp, npc, nvc, es, k, op);
    }
  }
}
