// On which networks deposited credits come back in the order in which they fall due.

module CreditDelays {
  import opened Wiring
  import opened Coordinates
  import opened Flits
  import opened Protocol
  import opened Stages
  import opened Runs
  import opened Changes
  import opened Priorities
  import opened CreditOrder
  import opened Folds
  import opened Timing
  import opened Travels
  import opened Cycles
  import opened Timetables
  import Mesh
  import Torus

  // In every reachable state every router's deposits are in clock order.
  ghost predicate AlwaysInClockOrder(T: Topo) {
    forall s, r {:trigger Reachable(T, s), s.rs[r]} :: Reachable(T, s) && 0 <= r < |s.rs| ==> InClockOrder(s.rs[r].deps)
  }

  lemma OneLatencyEverywhere(T: Topo)
    requires forall r :: OneLatency(T, r)
    ensures AlwaysInClockOrder(T)
  {
    forall s, r | Reachable(T, s) && 0 <= r < |s.rs| ensures InClockOrder(s.rs[r].deps) { OrderedByClock(T, s, r); }
  }

  // The comment in Router.h is right of every torus and every mesh.
  lemma TorusInClockOrder(t: Grid, epc: nat, linkLat: nat, par: Topo)
    requires t.Valid()
    ensures AlwaysInClockOrder(Torus.Network(t, epc, linkLat, par))
  {
    OneLatencyEverywhere(Torus.Network(t, epc, linkLat, par));
  }

  lemma MeshInClockOrder(t: Grid, epc: nat, linkLat: nat, par: Topo)
    requires t.Valid()
    ensures AlwaysInClockOrder(Mesh.Network(t, epc, linkLat, par))
  {
    OneLatencyEverywhere(Mesh.Network(t, epc, linkLat, par));
  }

  // ---------- a run that breaks the order ----------

  // The beginning of cycle n, with the flits at x and y; x is to leave its last router in cycle tau.
  ghost predicate Punctual(T: Topo, g: Routing, vp: Policy, pp: Policy, m: Moment, x: Tok, y: Tok, tau: int, n: int,
                           used: set<nat>) {
    Dawn(T, g, vp, pp, m, x, y) && Settled(T, m.net, x, x, tau) && m.net.now == n && m.used == used
  }

  function UsedBy(T: Topo, a: Trip, b: Trip, n: nat): set<nat> {
    if n == 0 then {} else if n <= Lag(T, a, b) then {0} else {0, 1}
  }

  // Both flits are where their timetables have them.
  ghost predicate OnTime(T: Topo, g: Routing, vp: Policy, pp: Policy, a: Trip, b: Trip, m: Moment, n: nat) {
    Punctual(T, g, vp, pp, m, FirstAt(T, a, b, n), SecondAt(T, a, b, n), Exit(T, a, 0, 2), n, UsedBy(T, a, b, n))
  }

  lemma NothingYet(T: Topo, x: Tok, y: Tok)
    requires x.pos.Before? && y.pos.Before?
    ensures World(Init(T), x, y)
  {
    var s := Init(T);
    forall z | 0 <= z < |s.rs| ensures Stands(z, s.rs[z], x, y) {}
  }

  lemma Opens(T: Topo, g: Routing, vp: Policy, pp: Policy, x: Tok, y: Tok, tau: int)
    requires Pair(T, g, x, y) && x.pos.Before? && y.pos.Before?
    ensures Punctual(T, g, vp, pp, FirstMoment(T, vp, pp), x, y, tau, 0, {})
  {
    var m := FirstMoment(T, vp, pp);
    assert TimedRun(T, g, m, [], m);
    NothingYet(T, x, y);
    T.WiredAt(Port(x.t.u, x.t.p), x.t.i);
  }

  // The flits do nothing in the cycle but what the lemmas about one cycle allow.
  lemma Cruises(T: Topo, g: Routing, a: Trip, b: Trip, n: nat)
    requires Crossroads(T, g, a, b) && n <= Exit(T, a, 0, 2)
    ensures Steady(T, n, FirstAt(T, a, b, n), SecondAt(T, a, b, n)) && 3 <= Lag(T, a, b) <= Exit(T, a, 0, 2)
    ensures Account(T, n, FirstAt(T, a, b, n), SecondAt(T, a, b, n), Exit(T, a, 0, 2))
  {
    SteadyAt(T, g, a, b, n);
    AccountAt(T, g, a, b, n);
    LastExits(T, g, a, b);
  }

  // Both flits move on, or one does and the packet of the other is begun.
  ghost predicate Advance(T: Topo, n: int, x: Tok, y: Tok, x1: Tok, y1: Tok, used: set<nat>, used1: set<nat>) {
    || (x1 == Later(T, n, x) && y1 == Later(T, n, y) && used1 == used)
    || (x.pos.Before? && 0 !in used && x1 == x.To(Inside(0, I)) && y1 == Later(T, n, y) && used1 == used + {0})
    || (y.pos.Before? && 1 !in used && y1 == y.To(Inside(0, I)) && x1 == Later(T, n, x) && used1 == used + {1})
  }

  lemma Advances(T: Topo, g: Routing, a: Trip, b: Trip, n: nat)
    requires Crossroads(T, g, a, b) && n <= Exit(T, a, 0, 2)
    ensures Advance(T, n, FirstAt(T, a, b, n), SecondAt(T, a, b, n), FirstAt(T, a, b, n + 1),
                    SecondAt(T, a, b, n + 1), UsedBy(T, a, b, n), UsedBy(T, a, b, n + 1))
  {
    LastExits(T, g, a, b);
    FirstNext(T, g, a, b, n);
    SecondNext(T, g, a, b, n);
  }

  // One cycle, from x and y to x1 and y1.
  lemma NextDay(T: Topo, g: Routing, vp: Policy, pp: Policy, m: Moment, x: Tok, y: Tok, x1: Tok, y1: Tok, tau: int,
                n: int, used: set<nat>, used1: set<nat>)
    returns (m': Moment)
    requires Punctual(T, g, vp, pp, m, x, y, tau, n, used) && Steady(T, n, x, y) && Account(T, n, x, y, tau) &&
             Funded(T)
    requires x.f == Flit(Atom, 0, 0) && y.f == Flit(Atom, 1, 0) && Advance(T, n, x, y, x1, y1, used, used1)
    ensures Punctual(T, g, vp, pp, m', x1, y1, tau, n + 1, used1)
  {
    if x1 == Later(T, n, x) && y1 == Later(T, n, y) && used1 == used {
      m' := Day(T, g, vp, pp, m, x, y, x1, y1, tau);
    } else if x1 == Later(T, n, x) {
      m' := DayOfSecond(T, g, vp, pp, m, x, y, x1, y1, tau);
    } else {
      m' := DayOfFirst(T, g, vp, pp, m, x, y, x1, y1, tau);
    }
  }

  ghost predicate Somehow(q: (Moment, nat) -> bool, n: nat) { exists m :: q(m, n) }

  ghost predicate GoesOn(q: (Moment, nat) -> bool, m: Moment, n: nat) { q(m, n) ==> Somehow(q, n + 1) }

  lemma {:induction false} Days(q: (Moment, nat) -> bool, m0: Moment, n: nat) returns (m: Moment)
    requires q(m0, 0) && forall u, i: nat {:trigger GoesOn(q, u, i)} :: i < n ==> GoesOn(q, u, i)
    ensures q(m, n)
  {
    m := m0;
    if n > 0 {
      var u := Days(q, m0, n - 1);
      assert GoesOn(q, u, n - 1);
      m :| q(m, n);
    }
  }

  // q holds of the moments that are on time.
  ghost predicate Tracks(T: Topo, g: Routing, vp: Policy, pp: Policy, a: Trip, b: Trip, q: (Moment, nat) -> bool) {
    forall u, i {:trigger q(u, i)} :: q(u, i) <==> OnTime(T, g, vp, pp, a, b, u, i)
  }

  lemma DayOn(T: Topo, g: Routing, vp: Policy, pp: Policy, a: Trip, b: Trip, q: (Moment, nat) -> bool, m: Moment,
              n: nat)
    requires Crossroads(T, g, a, b) && n <= Exit(T, a, 0, 2)
    requires Tracks(T, g, vp, pp, a, b, q)
    ensures GoesOn(q, m, n)
  {
    if q(m, n) {
      Cruises(T, g, a, b, n);
      Advances(T, g, a, b, n);
      var m' := NextDay(T, g, vp, pp, m, FirstAt(T, a, b, n), SecondAt(T, a, b, n), FirstAt(T, a, b, n + 1),
                        SecondAt(T, a, b, n + 1), Exit(T, a, 0, 2), n, UsedBy(T, a, b, n), UsedBy(T, a, b, n + 1));
      assert q(m', n + 1);
    }
  }

  lemma Opening(T: Topo, g: Routing, vp: Policy, pp: Policy, a: Trip, b: Trip, q: (Moment, nat) -> bool)
    requires Crossroads(T, g, a, b)
    requires Tracks(T, g, vp, pp, a, b, q)
    ensures q(FirstMoment(T, vp, pp), 0)
  {
    PairAt(T, g, a, b, 0);
    LastExits(T, g, a, b);
    Opens(T, g, vp, pp, FirstAt(T, a, b, 0), SecondAt(T, a, b, 0), Exit(T, a, 0, 2));
  }

  // The first flit has left its last router, and the second is about to.
  lemma TheEve(T: Topo, g: Routing, vp: Policy, pp: Policy, a: Trip, b: Trip, q: (Moment, nat) -> bool)
    returns (m: Moment)
    requires Crossroads(T, g, a, b)
    requires Tracks(T, g, vp, pp, a, b, q)
    ensures q(m, Exit(T, a, 0, 2) + 1)
  {
    Opening(T, g, vp, pp, a, b, q);
    forall u, n: nat | n < Exit(T, a, 0, 2) + 1 ensures GoesOn(q, u, n) { DayOn(T, g, vp, pp, a, b, q, u, n); }
    m := Days(q, FirstMoment(T, vp, pp), Exit(T, a, 0, 2) + 1);
  }

  lemma EveAre(T: Topo, g: Routing, a: Trip, b: Trip)
    requires Crossroads(T, g, a, b)
    ensures Over(FirstAt(T, a, b, Exit(T, a, 0, 2) + 1)) && Leaving(SecondAt(T, a, b, Exit(T, a, 0, 2) + 1))
    ensures FirstAt(T, a, b, Exit(T, a, 0, 2) + 1).pos.Gone? || !FirstAt(T, a, b, Exit(T, a, 0, 2) + 1).At(b.d.router)
  {
    LastExits(T, g, a, b);
    Legs(T, a, 0);
    Legs(T, a, 1);
    Legs(T, b, 0);
    Legs(T, b, 1);
  }

  lemma LastApart(T: Topo, g: Routing, s: Net, x: Tok, y: Tok, z: int)
    requires Pair(T, g, x, y) && Sized(T, s) && World(s, x, y) && Leaving(y) && Over(x)
    requires x.t.d.router != y.t.d.router == z
    ensures Apart(T, g, s, s, z, x, y, false, true)
  {
    KeyUp(T, g, y);
    assert Stands(z, s.rs[z], x, y);
  }

  // In the cycle that follows the last router of y runs.
  lemma LastPoised(T: Topo, g: Routing, vp: Policy, pp: Policy, m: Moment, x: Tok, y: Tok, z: int)
    requires Dawn(T, g, vp, pp, m, x, y) && Leaving(y) && Over(x) && x.t.d.router != y.t.d.router == z
    ensures Poised(T, g, m, z, x, y, false, true) && Awake(m.net.rs[z])
  {
    ComesLawful(T, g, vp, pp, m);
    LawfulGood(T, g, m.net);
    LastApart(T, g, m.net, x, y, z);
    WorldSwap(T, g, m.net, x, y);
    HasFlit(T, g, m.net, y, x, z);
  }

  lemma LastChoice(T: Topo, g: Routing, vp: Policy, pp: Policy, m: Moment, x: Tok, y: Tok, z: int)
    returns (ch: Choice, s': Net)
    requires Dawn(T, g, vp, pp, m, x, y) && Leaving(y) && Over(x) && x.t.d.router != y.t.d.router == z
    ensures 0 <= z < |m.net.rs| && Timed(T, m) && Possible(T, g, m, Run(z, ch)) && s' == RouterSim(T, m.net, z, ch)
    ensures HasRun(T, m.net, s', z, x, y, Moved(T, m.net.now, z, x, false), Moved(T, m.net.now, z, y, true))
  {
    LastPoised(T, g, vp, pp, m, x, y, z);
    ch := RunTravels(T, g, m, z, x, y, false, true);
    s' := RouterSim(T, m.net, z, ch);
  }

  lemma LastDeposit(T: Topo, g: Routing, s: Net, s': Net, x: Tok, y: Tok, x': Tok, y': Tok, z: int, d: Credit)
    requires T.Valid() && TokOk(T, g, y) && 0 <= y.t.i.router < |s.rs| && Leaving(y) && Over(x) && z == y.t.d.router
    requires x.t.d.router != z && HasRun(T, s, s', z, x, y, x', y') && s.rs[y.t.i.router].deps == [d]
    ensures |s'.rs| == |s.rs| && s'.rs[y.t.i.router].deps == [d, CreditFor(T, y.t, s.now)]
  {
    NextIs(T, g, y, 1);
    Refunds(T, g, s, y, z);
  }

  lemma LastRuns(T: Topo, g: Routing, vp: Policy, pp: Policy, m: Moment, x: Tok, y: Tok, d: Credit, d': Credit, r: int)
    returns (m': Moment)
    requires Dawn(T, g, vp, pp, m, x, y) && Leaving(y) && Over(x) && x.t.d.router != y.t.d.router
    requires y.t.i.router == r && 0 <= r < |m.net.rs| && m.net.rs[r].deps == [d] && d' == CreditFor(T, y.t, m.net.now)
    ensures Comes(T, g, vp, pp, m') && 0 <= r < |m'.net.rs| && m'.net.rs[r].deps == [d, d']
  {
    var ch, s' := LastChoice(T, g, vp, pp, m, x, y, y.t.d.router);
    m' := AfterEvent(T, m, Run(y.t.d.router, ch));
    ComesNext(T, g, vp, pp, m, Run(y.t.d.router, ch));
    LastDeposit(T, g, m.net, s', x, y, Moved(T, m.net.now, y.t.d.router, x, false),
                Moved(T, m.net.now, y.t.d.router, y, true), y.t.d.router, d);
  }

  lemma EveOwes(T: Topo, s: Net, x: Tok, tau: int)
    requires Settled(T, s, x, x, tau) && Over(x)
    ensures s.rs[x.t.i.router].deps == [CreditFor(T, x.t, tau)]
  {}

  lemma OutOfOrder(d: Credit, d': Credit)
    requires d.clk > d'.clk
    ensures !InClockOrder([d, d'])
  {
    var deps := [d, d'];
    assert deps[0].clk > deps[1].clk;
  }

  // What the timetables say of that moment.
  lemma EveIs(T: Topo, g: Routing, vp: Policy, pp: Policy, a: Trip, b: Trip, q: (Moment, nat) -> bool, m: Moment)
    returns (x: Tok, y: Tok)
    requires Crossroads(T, g, a, b) && q(m, Exit(T, a, 0, 2) + 1)
    requires Tracks(T, g, vp, pp, a, b, q)
    ensures Dawn(T, g, vp, pp, m, x, y) && x.t == a && y.t == b && Over(x) && Leaving(y)
    ensures m.net.now == Exit(T, a, 0, 2) + 1 && 0 <= a.i.router < |m.net.rs|
    ensures m.net.rs[a.i.router].deps == [CreditFor(T, a, Exit(T, a, 0, 2))]
  {
    EveAre(T, g, a, b);
    x, y := FirstAt(T, a, b, Exit(T, a, 0, 2) + 1), SecondAt(T, a, b, Exit(T, a, 0, 2) + 1);
    EveOwes(T, m.net, x, Exit(T, a, 0, 2));
  }

  // A router between wires of different lengths comes to hold its deposits out of order: the credit for the flit that
  // took the longer wire is deposited one cycle before that for the other, and falls due later.
  lemma BreaksOrder(T: Topo, g: Routing, vp: Policy, pp: Policy, a: Trip, b: Trip) returns (m: Moment)
    requires Crossroads(T, g, a, b)
    ensures Comes(T, g, vp, pp, m) && 0 <= a.i.router < |m.net.rs| && !InClockOrder(m.net.rs[a.i.router].deps)
  {
    var q := (u: Moment, n: nat) => OnTime(T, g, vp, pp, a, b, u, n);
    var m1 := TheEve(T, g, vp, pp, a, b, q);
    var x, y := EveIs(T, g, vp, pp, a, b, q, m1);
    var d, d' := CreditFor(T, a, Exit(T, a, 0, 2)), CreditFor(T, b, Exit(T, a, 0, 2) + 1);
    m := LastRuns(T, g, vp, pp, m1, x, y, d, d', a.i.router);
    OutOfOrder(d, d');
  }
}
