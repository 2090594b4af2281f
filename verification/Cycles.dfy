// Whole cycles in which two flits travel: every router that is awake runs, and time passes.

module Cycles {
  import opened Wiring
  import opened Flits
  import opened Protocol
  import opened Invariant
  import opened Stages
  import opened Runs
  import opened Changes
  import opened Priorities
  import opened Folds
  import opened Timing
  import opened Travels

  // Where the flit is when the cycle is over, if it is at x now and no packet is begun.
  function Later(T: Topo, now: int, x: Tok): Tok {
    if x.pos.Inside? || x.pos.Flying? then Moved(T, now, x.t.Router(x.pos.h), x, true) else x
  }

  // Where the flit is while the cycle goes on: it moves when its router runs.
  function Now(s: Net, x0: Tok, x1: Tok): Tok {
    if (x0.pos.Inside? || x0.pos.Flying?) && 0 <= x0.t.Router(x0.pos.h) < |s.rs| &&
       s.rs[x0.t.Router(x0.pos.h)].ran < s.now then x0 else x1
  }

  // x1 is where the flit is at the end of a cycle it begins at x0.
  ghost predicate Follows(T: Topo, now: int, x0: Tok, x1: Tok) {
    && x1.t == x0.t && x1.f == x0.f
    && (x1 == Later(T, now, x0) || (x0.pos.Before? && x1.pos == Inside(0, I)))
  }

  // The flits do not get in each other's way in this cycle.
  ghost predicate Steady(T: Topo, now: int, x: Tok, y: Tok) {
    forall z {:trigger x.At(z)} {:trigger y.At(z)} :: OneMoves(T, now, z, x, y) && OneActs(z, x, y, true, true)
  }

  // In the middle of a cycle that the flits begin at x0 and y0 and end at x1 and y1.
  ghost predicate Voyage(T: Topo, g: Routing, m: Moment, x0: Tok, y0: Tok, x1: Tok, y1: Tok) {
    && Pair(T, g, x0, y0) && Follows(T, m.net.now, x0, x1) && Follows(T, m.net.now, y0, y1)
    && Steady(T, m.net.now, x0, y0)
    && |m.start.rs| == |m.net.rs| && World(m.start, x0, y0) && World(m.net, Now(m.net, x0, x1), Now(m.net, y0, y1))
    && (forall z {:trigger m.net.rs[z]} :: 0 <= z < |m.net.rs| && m.net.rs[z].ran < m.net.now ==>
          m.net.rs[z].c.got == m.start.rs[z].c.got)
  }

  ghost predicate Sailing(T: Topo, g: Routing, vp: Policy, pp: Policy, m: Moment, x0: Tok, y0: Tok, x1: Tok, y1: Tok) {
    Comes(T, g, vp, pp, m) && Voyage(T, g, m, x0, y0, x1, y1)
  }

  // A flit that has moved already lies still in a router that has not run, fresh from the wire or the interface.
  lemma LaterHere(T: Topo, g: Routing, now: int, x0: Tok, x1: Tok, z: int)
    requires T.Valid() && TokOk(T, g, x0) && Follows(T, now, x0, x1) && !x0.At(z) && x1.At(z)
    requires x0.pos.Flying? ==> x0.pos.h < 2
    ensures x1.pos.Inside? && x1.pos.st.I?
  {
    if x0.pos.Flying? { NextIs(T, g, x0, x0.pos.h); }
  }

  lemma LaterOk(T: Topo, g: Routing, now: int, x0: Tok, x1: Tok, y0: Tok)
    requires Pair(T, g, x0, y0) && Follows(T, now, x0, x1) && Steady(T, now, x0, y0)
    ensures TokOk(T, g, x1) && (x0.pos.Flying? ==> x0.pos.h < 2)
  {
    if x0.pos.Inside? || x0.pos.Flying? {
      var z := x0.t.Router(x0.pos.h);
      assert x0.At(z);
      CarriedOk(T, g, now, z, x0);
      EndOk(T, g, z, Fore(T, now, z, x0), true);
    }
  }

  // Where the flit of a router that has not run is from.
  lemma NowAt(T: Topo, g: Routing, s: Net, x0: Tok, x1: Tok, y0: Tok, z: int)
    requires Pair(T, g, x0, y0) && Follows(T, s.now, x0, x1) && Steady(T, s.now, x0, y0)
    requires 0 <= z < |s.rs| && s.rs[z].ran < s.now && Now(s, x0, x1).At(z)
    ensures if x0.At(z) then Now(s, x0, x1) == x0 else Now(s, x0, x1).pos.Inside? && Now(s, x0, x1).pos.st.I?
  {
    LaterOk(T, g, s.now, x0, x1, y0);
    if !x0.At(z) { LaterHere(T, g, s.now, x0, x1, z); }
  }

  // The flit was here when the cycle began, or its input VC was empty.
  lemma NowSince(T: Topo, g: Routing, start: Net, s: Net, x0: Tok, x1: Tok, y0: Tok, y: Tok, z: int)
    requires Pair(T, g, x0, y0) && Follows(T, s.now, x0, x1) && Steady(T, s.now, x0, y0)
    requires 0 <= z < |s.rs| == |start.rs| && s.rs[z].ran < s.now && s.rs[z].c.got == start.rs[z].c.got
    requires World(start, x0, y0) || World(start, y0, x0)
    ensures Since(start, s, z, Now(s, x0, x1), y, x0.At(z))
  {
    var x := Now(s, x0, x1);
    if IsHere(x, z) {
      NowAt(T, g, s, x0, x1, y0, z);
      LaterOk(T, g, s.now, x0, x1, y0);
      var k := x.t.Key(x.pos.h);
      if World(start, x0, y0) {
        assert Stands(z, start.rs[z], x0, y0);
        assert Q(start.rs[z].c, k) == if x0.Lies(z, k) then [x0.f] else if y0.Lies(z, k) then [y0.f] else [];
      } else {
        assert Stands(z, start.rs[z], y0, x0);
        assert Q(start.rs[z].c, k) == if y0.Lies(z, k) then [y0.f] else if x0.Lies(z, k) then [x0.f] else [];
      }
    }
  }

  lemma NowApart(T: Topo, g: Routing, m: Moment, x0: Tok, y0: Tok, x1: Tok, y1: Tok, z: int)
    requires Pair(T, g, x0, y0) && Follows(T, m.net.now, x0, x1) && Follows(T, m.net.now, y0, y1)
    requires Steady(T, m.net.now, x0, y0) && 0 <= z < |m.net.rs| == |m.start.rs| && World(m.start, x0, y0)
    requires m.net.rs[z].ran < m.net.now && m.net.rs[z].c.got == m.start.rs[z].c.got
    ensures Apart(T, g, m.start, m.net, z, Now(m.net, x0, x1), Now(m.net, y0, y1), x0.At(z), y0.At(z))
  {
    var s := m.net;
    var x, y := Now(s, x0, x1), Now(s, y0, y1);
    SteadySwap(T, s.now, x0, y0);
    LaterOk(T, g, s.now, x0, x1, y0);
    LaterOk(T, g, s.now, y0, y1, x0);
    if x.At(z) { NowAt(T, g, s, x0, x1, y0, z); }
    if y.At(z) { NowAt(T, g, s, y0, y1, x0, z); }
    NowSince(T, g, m.start, s, x0, x1, y0, y, z);
    NowSince(T, g, m.start, s, y0, y1, x0, x, z);
    NowMoves(T, s, x0, y0, x, y, z);
    assert Pair(T, g, x, y);
  }

  lemma SteadySwap(T: Topo, now: int, x: Tok, y: Tok)
    requires Steady(T, now, x, y)
    ensures Steady(T, now, y, x)
  {
    forall z ensures OneMoves(T, now, z, y, x) && OneActs(z, y, x, true, true) {
      assert x.At(z) == x.At(z);
      assert OneMoves(T, now, z, x, y) && OneActs(z, x, y, true, true);
    }
  }

  lemma NowMoves(T: Topo, s: Net, x0: Tok, y0: Tok, x: Tok, y: Tok, z: int)
    requires Steady(T, s.now, x0, y0)
    requires x.At(z) ==> if x0.At(z) then x == x0 else x.pos.Inside? && x.pos.st.I?
    requires y.At(z) ==> if y0.At(z) then y == y0 else y.pos.Inside? && y.pos.st.I?
    ensures OneMoves(T, s.now, z, x, y) && OneActs(z, x, y, x0.At(z), y0.At(z))
  {
    assert x0.At(z) == x0.At(z);
    assert OneMoves(T, s.now, z, x0, y0) && OneActs(z, x0, y0, true, true);
  }

  // What the run of router z makes of the flit.
  lemma NowRuns(T: Topo, g: Routing, s: Net, s': Net, x0: Tok, x1: Tok, y0: Tok, z: int)
    requires Pair(T, g, x0, y0) && Follows(T, s.now, x0, x1) && Steady(T, s.now, x0, y0)
    requires 0 <= z < |s.rs| == |s'.rs| && s.rs[z].ran < s.now == s'.now && s'.rs[z].ran == s.now
    requires forall w {:trigger s'.rs[w]} :: 0 <= w < |s.rs| && w != z ==> s'.rs[w].ran == s.rs[w].ran
    ensures Moved(T, s.now, z, Now(s, x0, x1), x0.At(z)) == Now(s', x0, x1)
  {
    var x := Now(s, x0, x1);
    if x0.At(z) {
      assert x == x0 && Now(s', x0, x1) == x1 == Later(T, s.now, x0);
    } else {
      assert Now(s', x0, x1) == x;
      if x.At(z) { NowAt(T, g, s, x0, x1, y0, z); }
    }
  }

  // ---------- the router in the middle of both ways ----------

  // The flit has left the last router of its way.
  predicate Over(x: Tok) { x.pos.Gone? || (x.pos.Flying? && x.pos.h == 2) }

  predicate Leaving(x: Tok) { x.pos.Inside? && x.pos.h == 2 && x.pos.st.S? }

  // The credit that the router in the middle is given when the flit leaves the last one at time tau.
  function CreditFor(T: Topo, x: Trip, tau: int): Credit { Credit(x.o, 0, 1, tau + T.Lat(Port(x.i.router, x.o))) }

  function Owed(T: Topo, x: Tok, tau: int): seq<Credit> { if Over(x) then [CreditFor(T, x.t, tau)] else [] }

  // Of the two flits only x leaves the last router of its way in this cycle, if it does.
  ghost predicate Account(T: Topo, now: int, x0: Tok, y0: Tok, tau: int) {
    && x0.t.i.router == y0.t.i.router && !Over(x0) && !Over(y0) && !Leaving(y0) && (Leaving(x0) ==> now == tau)
  }

  lemma NowOver(T: Topo, g: Routing, s: Net, x0: Tok, x1: Tok, y0: Tok)
    requires Pair(T, g, x0, y0) && Follows(T, s.now, x0, x1) && Steady(T, s.now, x0, y0) && !Over(x0)
    ensures Over(x1) ==> Leaving(x0)
    ensures Leaving(x0) ==> Over(x1)
  {
    if x0.pos.Flying? {
      LaterOk(T, g, s.now, x0, x1, y0);
      NextIs(T, g, x0, x0.pos.h);
    }
  }

  lemma Refunds(T: Topo, g: Routing, s: Net, x: Tok, z: int)
    requires T.Valid() && TokOk(T, g, x) && 0 <= x.t.i.router < |s.rs|
    ensures Refunded(T, s, x.t.i.router, x, z) ==
            s.rs[x.t.i.router].deps + if Crossing(x, z) && Leaving(x) then [CreditFor(T, x.t, s.now)] else []
  {
    NextIs(T, g, x, 0);
    NextIs(T, g, x, 1);
  }

  // What lies in a router that has not run, and is about to cross there, does so in this cycle.
  lemma NowCrosses(T: Topo, g: Routing, s: Net, x0: Tok, x1: Tok, y0: Tok, z: int)
    requires Pair(T, g, x0, y0) && Follows(T, s.now, x0, x1) && Steady(T, s.now, x0, y0)
    requires 0 <= z < |s.rs| && s.rs[z].ran < s.now && Crossing(Now(s, x0, x1), z)
    ensures Now(s, x0, x1) == x0 && x0.At(z)
  {
    NowAt(T, g, s, x0, x1, y0, z);
  }

  // x0 leaves its last router exactly when that runs.
  lemma OwedNext(T: Topo, g: Routing, s: Net, s': Net, x0: Tok, x1: Tok, y0: Tok, z: int, tau: int)
    requires Pair(T, g, x0, y0) && Follows(T, s.now, x0, x1) && Steady(T, s.now, x0, y0) && !Over(x0)
    requires (Leaving(x0) ==> s.now == tau) && 0 <= z < |s.rs| == |s'.rs| && s.rs[z].ran < s.now == s'.now
    requires s'.rs[z].ran == s.now
    requires forall w {:trigger s'.rs[w]} :: 0 <= w < |s.rs| && w != z ==> s'.rs[w].ran == s.rs[w].ran
    ensures var x := Now(s, x0, x1);
            Owed(T, Now(s', x0, x1), tau) ==
            Owed(T, x, tau) + if Crossing(x, z) && Leaving(x) then [CreditFor(T, x.t, s.now)] else []
  {
    NowOver(T, g, s, x0, x1, y0);
    if Crossing(Now(s, x0, x1), z) { NowCrosses(T, g, s, x0, x1, y0, z); }
  }

  // What it has been given already is not due in this cycle.
  lemma NotDue(T: Topo, g: Routing, s: Net, x0: Tok, x1: Tok, y0: Tok, tau: int)
    requires Pair(T, g, x0, y0) && Follows(T, s.now, x0, x1) && Steady(T, s.now, x0, y0)
    requires !Over(x0) && (Leaving(x0) ==> s.now == tau)
    ensures var d := Owed(T, Now(s, x0, x1), tau); d == [] || d[0].clk > s.now
  {
    NowOver(T, g, s, x0, x1, y0);
    NextIs(T, g, x0, 1);
    T.WiredAt(Port(x0.t.i.router, x0.t.o), x0.t.d);
  }

  lemma DepositsAre(T: Topo, g: Routing, s: Net, x0: Tok, x1: Tok, y0: Tok, y1: Tok, z: int, tau: int)
    requires Pair(T, g, x0, y0) && Follows(T, s.now, x0, x1) && Follows(T, s.now, y0, y1) && Steady(T, s.now, x0, y0)
    requires Account(T, s.now, x0, y0, tau) && 0 <= z < |s.rs| && s.rs[z].ran < s.now && 0 <= x0.t.i.router < |s.rs|
    ensures var x := Now(s, x0, x1);
            Deposits(T, s, x0.t.i.router, x, Now(s, y0, y1), z) ==
            s.rs[x0.t.i.router].deps + if Crossing(x, z) && Leaving(x) then [CreditFor(T, x.t, s.now)] else []
  {
    var x, y := Now(s, x0, x1), Now(s, y0, y1);
    SteadySwap(T, s.now, x0, y0);
    LaterOk(T, g, s.now, x0, x1, y0);
    LaterOk(T, g, s.now, y0, y1, x0);
    Refunds(T, g, s, x, z);
    Refunds(T, g, s, y, z);
    if Crossing(y, z) { NowCrosses(T, g, s, y0, y1, x0, z); }
  }

  lemma Deposited(T: Topo, g: Routing, s: Net, s': Net, x0: Tok, x1: Tok, y0: Tok, y1: Tok, z: int, tau: int)
    requires Pair(T, g, x0, y0) && Follows(T, s.now, x0, x1) && Follows(T, s.now, y0, y1) && Steady(T, s.now, x0, y0)
    requires Account(T, s.now, x0, y0, tau) && 0 <= z < |s.rs| && s.rs[z].ran < s.now && 0 <= x0.t.i.router < |s.rs|
    requires s.rs[x0.t.i.router].deps == Owed(T, Now(s, x0, x1), tau)
    requires HasRun(T, s, s', z, Now(s, x0, x1), Now(s, y0, y1), Now(s', x0, x1), Now(s', y0, y1))
    ensures s'.rs[x0.t.i.router].deps == Owed(T, Now(s', x0, x1), tau)
  {
    DepositsAre(T, g, s, x0, x1, y0, y1, z, tau);
    OwedNext(T, g, s, s', x0, x1, y0, z, tau);
    NotDue(T, g, s, x0, x1, y0, tau);
  }

  // ---------- the routers run ----------

  lemma VoyageOn(T: Topo, g: Routing, m: Moment, m': Moment, x0: Tok, y0: Tok, x1: Tok, y1: Tok, z: int)
    requires Voyage(T, g, m, x0, y0, x1, y1) && m'.start == m.start && 0 <= z < |m.net.rs| &&
             m.net.rs[z].ran < m.net.now
    requires HasRun(T, m.net, m'.net, z, Now(m.net, x0, x1), Now(m.net, y0, y1),
                    Moved(T, m.net.now, z, Now(m.net, x0, x1), x0.At(z)),
                    Moved(T, m.net.now, z, Now(m.net, y0, y1), y0.At(z)))
    ensures Voyage(T, g, m', x0, y0, x1, y1)
    ensures HasRun(T, m.net, m'.net, z, Now(m.net, x0, x1), Now(m.net, y0, y1), Now(m'.net, x0, x1),
                   Now(m'.net, y0, y1))
  {
    SteadySwap(T, m.net.now, x0, y0);
    NowRuns(T, g, m.net, m'.net, x0, x1, y0, z);
    NowRuns(T, g, m.net, m'.net, y0, y1, x0, z);
  }

  lemma RunSails(T: Topo, g: Routing, vp: Policy, pp: Policy, m: Moment, x0: Tok, y0: Tok, x1: Tok, y1: Tok, z: int)
    returns (m': Moment)
    requires Sailing(T, g, vp, pp, m, x0, y0, x1, y1)
    requires 0 <= z < |m.net.rs| && Awake(m.net.rs[z]) && m.net.rs[z].ran < m.net.now
    ensures Comes(T, g, vp, pp, m') && m'.start == m.start && m'.used == m.used && m'.turned == m.turned
    ensures HasRun(T, m.net, m'.net, z, Now(m.net, x0, x1), Now(m.net, y0, y1),
                   Moved(T, m.net.now, z, Now(m.net, x0, x1), x0.At(z)),
                   Moved(T, m.net.now, z, Now(m.net, y0, y1), y0.At(z)))
  {
    ComesLawful(T, g, vp, pp, m);
    LawfulGood(T, g, m.net);
    NowApart(T, g, m, x0, y0, x1, y1, z);
    var ch := RunTravels(T, g, m, z, Now(m.net, x0, x1), Now(m.net, y0, y1), x0.At(z), y0.At(z));
    m' := AfterEvent(T, m, Run(z, ch));
    ComesNext(T, g, vp, pp, m, Run(z, ch));
  }

  // The router in the middle has been given what it is owed, and no more.
  ghost predicate Settled(T: Topo, s: Net, x0: Tok, x1: Tok, tau: int) {
    0 <= x0.t.i.router < |s.rs| && s.rs[x0.t.i.router].deps == Owed(T, Now(s, x0, x1), tau)
  }

  // In the middle of the cycle, with the books of the router in the middle.
  ghost predicate Afloat(T: Topo, g: Routing, vp: Policy, pp: Policy, m: Moment, x0: Tok, y0: Tok, x1: Tok, y1: Tok,
                         tau: int) {
    Sailing(T, g, vp, pp, m, x0, y0, x1, y1) && Account(T, m.net.now, x0, y0, tau) && Settled(T, m.net, x0, x1, tau)
  }

  // Of all routers only z has run.
  ghost predicate OnlyRan(s: Net, s': Net, z: int) {
    && |s'.rs| == |s.rs| && s'.now == s.now
    && forall w {:trigger s'.rs[w]} :: 0 <= w < |s.rs| ==> s'.rs[w].ran == if w == z then s.now else s.rs[w].ran
  }

  // A router that is awake runs.
  lemma OneRuns(T: Topo, g: Routing, vp: Policy, pp: Policy, m: Moment, x0: Tok, y0: Tok, x1: Tok, y1: Tok, z: int,
                tau: int)
    returns (m': Moment)
    requires Afloat(T, g, vp, pp, m, x0, y0, x1, y1, tau)
    requires 0 <= z < |m.net.rs| && Awake(m.net.rs[z]) && m.net.rs[z].ran < m.net.now
    ensures Afloat(T, g, vp, pp, m', x0, y0, x1, y1, tau) && m'.used == m.used && OnlyRan(m.net, m'.net, z)
  {
    m' := RunSails(T, g, vp, pp, m, x0, y0, x1, y1, z);
    VoyageOn(T, g, m, m', x0, y0, x1, y1, z);
    Deposited(T, g, m.net, m'.net, x0, x1, y0, y1, z, tau);
  }

  // The routers that have not run.
  function Idle(s: Net): set<int> { set z | 0 <= z < |s.rs| && s.rs[z].ran < s.now }

  ghost predicate AllRan(s: Net) {
    forall z {:trigger s.rs[z]} :: 0 <= z < |s.rs| && Awake(s.rs[z]) ==> s.rs[z].ran >= s.now
  }

  ghost predicate Shrinks(p: Moment -> bool, m: Moment) {
    p(m) && !AllRan(m.net) ==> exists m' :: p(m') && |Idle(m'.net)| < |Idle(m.net)|
  }

  // As long as a router that has not run can, in the end all have that are awake.
  lemma {:induction false} AllRun(p: Moment -> bool, m: Moment) returns (m': Moment)
    requires p(m) && forall u {:trigger Shrinks(p, u)} :: Shrinks(p, u)
    ensures p(m') && AllRan(m'.net)
    decreases |Idle(m.net)|
  {
    m' := m;
    assert Shrinks(p, m);
    if !AllRan(m.net) {
      var u :| p(u) && |Idle(u.net)| < |Idle(m.net)|;
      m' := AllRun(p, u);
    }
  }

  lemma OneLess(s: Net, s': Net, z: int)
    requires OnlyRan(s, s', z) && 0 <= z < |s.rs| && s.rs[z].ran < s.now
    ensures |Idle(s')| < |Idle(s)|
  {
    assert Idle(s') == Idle(s) - {z};
  }

  lemma SomeRuns(T: Topo, g: Routing, vp: Policy, pp: Policy, m: Moment, x0: Tok, y0: Tok, x1: Tok, y1: Tok, tau: int)
    returns (m': Moment)
    requires Afloat(T, g, vp, pp, m, x0, y0, x1, y1, tau) && !AllRan(m.net)
    ensures Afloat(T, g, vp, pp, m', x0, y0, x1, y1, tau) && m'.net.now == m.net.now && m'.used == m.used
    ensures |Idle(m'.net)| < |Idle(m.net)|
  {
    var z :| 0 <= z < |m.net.rs| && Awake(m.net.rs[z]) && m.net.rs[z].ran < m.net.now;
    m' := OneRuns(T, g, vp, pp, m, x0, y0, x1, y1, z, tau);
    OneLess(m.net, m'.net, z);
  }

  // p holds of the moments of the cycle that m0 is in.
  lemma MayShrink(T: Topo, g: Routing, vp: Policy, pp: Policy, p: Moment -> bool, m0: Moment, m: Moment, x0: Tok,
                  y0: Tok, x1: Tok, y1: Tok, tau: int)
    requires forall u {:trigger p(u)} ::
               p(u) <==> Afloat(T, g, vp, pp, u, x0, y0, x1, y1, tau) && u.net.now == m0.net.now && u.used == m0.used
    ensures Shrinks(p, m)
  {
    if p(m) && !AllRan(m.net) {
      var m' := SomeRuns(T, g, vp, pp, m, x0, y0, x1, y1, tau);
      assert p(m');
    }
  }

  lemma Finishes(T: Topo, g: Routing, vp: Policy, pp: Policy, m: Moment, x0: Tok, y0: Tok, x1: Tok, y1: Tok, tau: int)
    returns (m': Moment)
    requires Afloat(T, g, vp, pp, m, x0, y0, x1, y1, tau)
    ensures Afloat(T, g, vp, pp, m', x0, y0, x1, y1, tau) && AllRan(m'.net) && m'.used == m.used
    ensures m'.net.now == m.net.now
  {
    var p := (u: Moment) => Afloat(T, g, vp, pp, u, x0, y0, x1, y1, tau) && u.net.now == m.net.now && u.used == m.used;
    forall u ensures Shrinks(p, u) { MayShrink(T, g, vp, pp, p, m, u, x0, y0, x1, y1, tau); }
    m' := AllRun(p, m);
  }

  // ---------- time passes ----------

  // The beginning of a cycle.
  ghost predicate Dawn(T: Topo, g: Routing, vp: Policy, pp: Policy, m: Moment, x: Tok, y: Tok) {
    && Comes(T, g, vp, pp, m) && Pair(T, g, x, y) && World(m.net, x, y) && m.start == m.net && m.turned == {}
    && (forall z {:trigger m.net.rs[z]} :: 0 <= z < |m.net.rs| ==> m.net.rs[z].ran < m.net.now)
  }

  lemma {:induction false} RowOf(q: map<VC, seq<Flit>>, k: VC, n: nat)
    requires 0 <= k.vc < n && Queue(q, k) != []
    ensures RowQ(q, k.pc, n) > 0
  {
    if k.vc < n - 1 { RowOf(q, k, n - 1); } else { assert k == VC(k.pc, n - 1); }
  }

  lemma {:induction false} SumOf(q: map<VC, seq<Flit>>, pc: int, n: nat, nvc: nat)
    requires 0 <= pc < n && RowQ(q, pc, nvc) > 0
    ensures SumQ(q, n, nvc) > 0
  {
    if pc < n - 1 { SumOf(q, pc, n - 1, nvc); }
  }

  lemma {:induction false} LinksOf(link: map<int, seq<Wire>>, op: int, n: nat)
    requires 0 <= op < n && Link(link, op) != []
    ensures SumLink(link, n) > 0
  {
    if op < n - 1 { LinksOf(link, op, n - 1); }
  }

  // A router with a flit is awake.
  lemma HasFlit(T: Topo, g: Routing, s: Net, x: Tok, y: Tok, z: int)
    requires Inv(T, s) && World(s, x, y) && T.nvc >= 1 && TokOk(T, g, x) && x.At(z) && 0 <= z < |s.rs|
    requires x.pos.Flying? ==> x.pos.h < 2
    ensures Awake(s.rs[z])
  {
    assert Stands(z, s.rs[z], x, y) && InsideOk(T, z, s.rs[z]);
    if x.pos.Inside? {
      var k := x.t.Key(x.pos.h);
      KeyUp(T, g, x);
      assert Q(s.rs[z].c, k) == [x.f];
      RowOf(s.rs[z].c.q, k, T.nvc);
      SumOf(s.rs[z].c.q, k.pc, T.npc[z], T.nvc);
    } else {
      NextIs(T, g, x, x.pos.h);
      assert Link(s.rs[z].link, x.t.Out(x.pos.h)) == [Wire(x.f, 0, x.pos.clk)];
      LinksOf(s.rs[z].link, x.t.Out(x.pos.h), T.npc[z]);
    }
  }

  // When all routers that are awake have run, the flit is where it is to be.
  lemma HasMoved(T: Topo, g: Routing, s: Net, x0: Tok, x1: Tok, y0: Tok, y: Tok)
    requires Inv(T, s) && Pair(T, g, x0, y0) && Follows(T, s.now, x0, x1) && Steady(T, s.now, x0, y0) && AllRan(s)
    requires World(s, Now(s, x0, x1), y)
    ensures Now(s, x0, x1) == x1
  {
    LaterOk(T, g, s.now, x0, x1, y0);
    if Now(s, x0, x1) != x1 { HasFlit(T, g, s, x0, y, x0.t.Router(x0.pos.h)); }
  }

  // All routers that are awake have run, and both flits are where they are to be.
  lemma Lands(T: Topo, g: Routing, vp: Policy, pp: Policy, m: Moment, x0: Tok, y0: Tok, x1: Tok, y1: Tok, tau: int)
    requires Afloat(T, g, vp, pp, m, x0, y0, x1, y1, tau) && AllRan(m.net)
    ensures Timed(T, m) && Inv(T, m.net) && World(m.net, x1, y1) && Settled(T, m.net, x1, x1, tau) && Pair(T, g, x1, y1)
    ensures forall z {:trigger m.net.rs[z]} :: 0 <= z < |m.net.rs| ==> m.net.rs[z].ran <= m.net.now
  {
    ComesLawful(T, g, vp, pp, m);
    LawfulGood(T, g, m.net);
    SteadySwap(T, m.net.now, x0, y0);
    LaterOk(T, g, m.net.now, x0, x1, y0);
    LaterOk(T, g, m.net.now, y0, y1, x0);
    HasMoved(T, g, m.net, x0, x1, y0, Now(m.net, y0, y1));
    WorldBack(T, g, m.net, x1, Now(m.net, y0, y1), y0, y1);
    HasMoved(T, g, m.net, y0, y1, x0, x1);
    WorldBack(T, g, m.net, y1, x1, x0, x1);
    forall z | 0 <= z < |m.net.rs| ensures m.net.rs[z].ran <= m.net.now { assert Rested(T, z, m.net.rs[z], m.net.now); }
  }

  lemma WorldBack(T: Topo, g: Routing, s: Net, x: Tok, y: Tok, y0: Tok, y1: Tok)
    requires World(s, x, y) && Compatible(x.t, y.t) && TokOk(T, g, x) && (y == y0 || y == y1)
    requires TokOk(T, g, y0) && TokOk(T, g, y1)
    ensures World(s, y, x)
  {
    WorldSwap(T, g, s, x, y);
  }

  lemma Passing(T: Topo, g: Routing, vp: Policy, pp: Policy, m: Moment, x: Tok, y: Tok) returns (m': Moment)
    requires Comes(T, g, vp, pp, m) && Timed(T, m) && Pair(T, g, x, y) && World(m.net, x, y) && AllRan(m.net)
    requires forall z {:trigger m.net.rs[z]} :: 0 <= z < |m.net.rs| ==> m.net.rs[z].ran <= m.net.now
    ensures Dawn(T, g, vp, pp, m', x, y) && m'.net == m.net.(now := m.net.now + 1) && m'.used == m.used
  {
    forall r, k | T.ValidVC(r, k) ensures Pending(m.net.rs[r], k) == [] { assert Stands(r, m.net.rs[r], x, y); }
    m' := AfterEvent(T, m, Pass);
    ComesNext(T, g, vp, pp, m, Pass);
    TimelessWorld(m.net, m'.net, x, y);
  }

  lemma TimelessWorld(s: Net, s': Net, x: Tok, y: Tok)
    requires World(s, x, y) && s'.rs == s.rs
    ensures World(s', x, y)
  {
    forall z | 0 <= z < |s'.rs| ensures Stands(z, s'.rs[z], x, y) && Purse(z, s'.rs[z], x, y) {
      assert Stands(z, s.rs[z], x, y) && Purse(z, s.rs[z], x, y);
    }
  }

  // The cycle is over.
  lemma Passes(T: Topo, g: Routing, vp: Policy, pp: Policy, m: Moment, x0: Tok, y0: Tok, x1: Tok, y1: Tok, tau: int)
    returns (m': Moment)
    requires Afloat(T, g, vp, pp, m, x0, y0, x1, y1, tau) && AllRan(m.net)
    ensures Dawn(T, g, vp, pp, m', x1, y1) && Settled(T, m'.net, x1, x1, tau) && m'.used == m.used
    ensures m'.net.now == m.net.now + 1
  {
    Lands(T, g, vp, pp, m, x0, y0, x1, y1, tau);
    m' := Passing(T, g, vp, pp, m, x1, y1);
  }

  lemma DawnFloats(T: Topo, g: Routing, vp: Policy, pp: Policy, m: Moment, x: Tok, y: Tok, tau: int)
    requires Dawn(T, g, vp, pp, m, x, y) && Steady(T, m.net.now, x, y) && Account(T, m.net.now, x, y, tau)
    requires Settled(T, m.net, x, x, tau)
    ensures Afloat(T, g, vp, pp, m, x, y, Later(T, m.net.now, x), Later(T, m.net.now, y), tau)
  {
    ComesLawful(T, g, vp, pp, m);
    AtDawn(T, g, m.net, x, y);
    SteadySwap(T, m.net.now, x, y);
    AtDawn(T, g, m.net, y, x);
    EndsSame(T, m.net.now, x);
    EndsSame(T, m.net.now, y);
  }

  lemma EndsSame(T: Topo, now: int, x: Tok)
    ensures Later(T, now, x).t == x.t && Later(T, now, x).f == x.f
  {}

  lemma AtDawn(T: Topo, g: Routing, s: Net, x: Tok, y: Tok)
    requires Pair(T, g, x, y) && Sized(T, s) && Steady(T, s.now, x, y)
    requires forall z {:trigger s.rs[z]} :: 0 <= z < |s.rs| ==> s.rs[z].ran < s.now
    ensures Now(s, x, Later(T, s.now, x)) == x
  {
    if x.pos.Inside? { KeyUp(T, g, x); }
    if x.pos.Flying? {
      LaterOk(T, g, s.now, x, Later(T, s.now, x), y);
      NextIs(T, g, x, x.pos.h);
    }
  }

  // A cycle in which no packet is begun.
  lemma Day(T: Topo, g: Routing, vp: Policy, pp: Policy, m: Moment, x: Tok, y: Tok, x1: Tok, y1: Tok, tau: int)
    returns (m': Moment)
    requires Dawn(T, g, vp, pp, m, x, y) && Steady(T, m.net.now, x, y) && Account(T, m.net.now, x, y, tau)
    requires Settled(T, m.net, x, x, tau) && x1 == Later(T, m.net.now, x) && y1 == Later(T, m.net.now, y)
    ensures Dawn(T, g, vp, pp, m', x1, y1) && Settled(T, m'.net, x1, x1, tau)
    ensures m'.used == m.used && m'.net.now == m.net.now + 1
  {
    DawnFloats(T, g, vp, pp, m, x, y, tau);
    var m1 := Finishes(T, g, vp, pp, m, x, y, x1, y1, tau);
    m' := Passes(T, g, vp, pp, m1, x, y, x1, y1, tau);
  }

  // ---------- a packet is begun ----------

  lemma {:induction false} RowEmpty(q: map<VC, seq<Flit>>, pc: int, n: nat)
    requires forall k: VC {:trigger Queue(q, k)} :: k.pc == pc ==> Queue(q, k) == []
    ensures RowQ(q, pc, n) == 0
  {
    if n > 0 {
      RowEmpty(q, pc, n - 1);
      assert Queue(q, VC(pc, n - 1)) == [];
    }
  }

  lemma RoomFor(T: Topo, rs: RouterState, x: Tok, y: Tok)
    requires Funded(T) && Stands(x.t.u, rs, x, y) && x.pos.Before? && Compatible(x.t, y.t) &&
             (y.pos.Inside? ==> y.pos.h < 3)
    ensures !IsFull(T, rs.c, x.t.k)
  {
    forall k: VC | k.pc == x.t.k.pc ensures Queue(rs.c.q, k) == [] {
      assert Q(rs.c, k) == if y.Lies(x.t.u, k) then [y.f] else [];
      assert x.t.Router(0) == x.t.u && x.t.Key(0) == x.t.k;
      if y.pos.Inside? && y.t.Router(y.pos.h) == x.t.u { assert x.t.Key(0).pc != y.t.Key(y.pos.h).pc; }
    }
    RowEmpty(rs.c.q, x.t.k.pc, T.nvc);
    AtLeast(T.nvc, T.depth);
    assert Q(rs.c, x.t.k) == [];
  }

  // The router with the flit in front of its injection VC.
  lemma Injected(z: int, a: RouterState, x: Tok, y: Tok) returns (b: RouterState)
    requires Stands(z, a, x, y) && x.pos.Before? && x.t.u == z && x.f == Flit(Atom, x.f.pkt, 0)
    requires Compatible(x.t, y.t) && (y.pos.Inside? ==> y.pos.h < 3)
    ensures Pending(Reserve(a, x.t.k, x.f.pkt, 0, 1), x.t.k) != []
    ensures b == Inject(Reserve(a, x.t.k, x.f.pkt, 0, 1), x.t.k)
    ensures Stands(z, b, x.To(Inside(0, I)), y) && b.cred == a.cred && b.deps == a.deps && b.ran == a.ran &&
            b.c.got == a.c.got
  {
    var r := Reserve(a, x.t.k, x.f.pkt, 0, 1);
    assert Cut(x.f.pkt, 0, 1) == [x.f];
    assert Pending(r, x.t.k) == [x.f];
    b := Inject(r, x.t.k);
    forall k ensures Pending(b, k) == [] { assert Pending(a, k) == []; }
    assert x.t.Router(0) == z && x.t.Key(0) == x.t.k;
    assert !y.Lies(z, x.t.k);
    EnqueueStands(z, a, b, x, y, x.To(Inside(0, I)), x.t.k);
  }

  // Only the flit of x has come, and nothing else has happened.
  ghost predicate HasBegun(m: Moment, m': Moment, x: Tok) {
    && m'.start == m.start && m'.used == m.used + {x.f.pkt} && m'.net.now == m.net.now && |m'.net.rs| == |m.net.rs|
    && (forall z {:trigger m'.net.rs[z]} :: 0 <= z < |m.net.rs| ==>
          && m'.net.rs[z].ran == m.net.rs[z].ran && m'.net.rs[z].deps == m.net.rs[z].deps
          && m'.net.rs[z].c.got == m.net.rs[z].c.got)
  }

  lemma MayBegin(T: Topo, g: Routing, m: Moment, x: Tok, y: Tok)
    requires Timed(T, m) && Pair(T, g, x, y) && World(m.net, x, y) && m.turned == {} && Funded(T)
    requires x.pos.Before? && x.f.pkt !in m.used
    ensures 0 <= x.t.u < |m.net.rs| && MayStart(T, g, m, x.t.u, x.t.k, x.f.pkt)
  {
    assert Stands(x.t.u, m.net.rs[x.t.u], x, y);
    RoomFor(T, m.net.rs[x.t.u], x, y);
  }

  lemma BegunWorld(T: Topo, g: Routing, s: Net, s': Net, x: Tok, y: Tok, b: RouterState)
    requires Pair(T, g, x, y) && World(s, x, y) && x.pos.Before? && 0 <= x.t.u < |s.rs| && s' == Upd(s, x.t.u, b)
    requires Stands(x.t.u, b, x.To(Inside(0, I)), y) && b.cred == s.rs[x.t.u].cred && b.deps == s.rs[x.t.u].deps
    ensures World(s', x.To(Inside(0, I)), y)
  {
    var x' := x.To(Inside(0, I));
    forall z | 0 <= z < |s'.rs| ensures Stands(z, s'.rs[z], x', y) && Purse(z, s'.rs[z], x', y) {
      assert Stands(z, s.rs[z], x, y) && Purse(z, s.rs[z], x, y);
      if z != x.t.u { ElsewhereStands(z, s.rs[z], x, y, x'); }
    }
  }

  // Reserving the injection VC and writing the flit change one router.
  lemma BegunNet(T: Topo, g: Routing, m: Moment, u: int, k: VC, p: nat, b: RouterState) returns (m': Moment)
    requires Timed(T, m) && 0 <= u < |m.net.rs| && MayStart(T, g, m, u, k, p)
    requires b == Inject(Reserve(m.net.rs[u], k, p, 0, 1), k)
    ensures m' == AfterEvent(T, m, Start(u, k, p, 0, 1)) && m'.net == Upd(m.net, u, b)
    ensures m'.start == m.start && m'.used == m.used + {p}
  {
    var r := Reserved(T, g, m, u, k, p, 0, 1);
    m' := AfterEvent(T, m, Start(u, k, p, 0, 1));
    assert Upd(Upd(m.net, u, r), u, b) == Upd(m.net, u, b);
  }

  lemma BegunBooks(m: Moment, m': Moment, x: Tok, b: RouterState)
    requires 0 <= x.t.u < |m.net.rs| && m'.net == Upd(m.net, x.t.u, b)
    requires b.deps == m.net.rs[x.t.u].deps && b.ran == m.net.rs[x.t.u].ran && b.c.got == m.net.rs[x.t.u].c.got
    requires m'.start == m.start && m'.used == m.used + {x.f.pkt}
    ensures HasBegun(m, m', x)
  {}

  lemma BegunAt(T: Topo, g: Routing, m: Moment, x: Tok, y: Tok) returns (m': Moment)
    requires Timed(T, m) && Pair(T, g, x, y) && World(m.net, x, y)
    requires x.pos.Before? && x.f == Flit(Atom, x.f.pkt, 0)
    requires 0 <= x.t.u < |m.net.rs| && MayStart(T, g, m, x.t.u, x.t.k, x.f.pkt)
    ensures m' == AfterEvent(T, m, Start(x.t.u, x.t.k, x.f.pkt, 0, 1))
    ensures HasBegun(m, m', x) && World(m'.net, x.To(Inside(0, I)), y)
  {
    assert Stands(x.t.u, m.net.rs[x.t.u], x, y);
    var b := Injected(x.t.u, m.net.rs[x.t.u], x, y);
    m' := BegunNet(T, g, m, x.t.u, x.t.k, x.f.pkt, b);
    BegunBooks(m, m', x, b);
    BegunWorld(T, g, m.net, m'.net, x, y, b);
  }

  // The process of a network interface begins the packet and writes its flit.
  lemma Starts(T: Topo, g: Routing, vp: Policy, pp: Policy, m: Moment, x: Tok, y: Tok) returns (m': Moment)
    requires Comes(T, g, vp, pp, m) && Pair(T, g, x, y) && World(m.net, x, y) && m.turned == {} && Funded(T)
    requires x.pos.Before? && x.f == Flit(Atom, x.f.pkt, 0) && x.f.pkt !in m.used
    ensures Comes(T, g, vp, pp, m') && HasBegun(m, m', x) && World(m'.net, x.To(Inside(0, I)), y)
  {
    ComesLawful(T, g, vp, pp, m);
    MayBegin(T, g, m, x, y);
    m' := BegunAt(T, g, m, x, y);
    ComesNext(T, g, vp, pp, m, Start(x.t.u, x.t.k, x.f.pkt, 0, 1));
  }

  // The flit is where it was when nothing but the other packet has happened.
  lemma BegunNow(T: Topo, g: Routing, m: Moment, m': Moment, x: Tok, y: Tok, z: Tok)
    requires Pair(T, g, x, y) && Sized(T, m.net) && Steady(T, m.net.now, x, y) && HasBegun(m, m', z)
    requires forall w {:trigger m.net.rs[w]} :: 0 <= w < |m.net.rs| ==> m.net.rs[w].ran < m.net.now
    ensures Now(m'.net, x, Later(T, m.net.now, x)) == x
  {
    AtDawn(T, g, m.net, x, y);
  }

  // Settled and afloat, from what a packet that begins leaves.
  lemma BegunFloats(T: Topo, g: Routing, vp: Policy, pp: Policy, m: Moment, m': Moment, x: Tok, y: Tok, x1: Tok,
                    y1: Tok, z: Tok, tau: int)
    requires Dawn(T, g, vp, pp, m, x, y) && Steady(T, m.net.now, x, y) && Account(T, m.net.now, x, y, tau)
    requires Settled(T, m.net, x, x, tau) && Comes(T, g, vp, pp, m') && HasBegun(m, m', z)
    requires Follows(T, m.net.now, x, x1) && Follows(T, m.net.now, y, y1)
    requires World(m'.net, Now(m'.net, x, x1), Now(m'.net, y, y1)) && !Over(Now(m'.net, x, x1))
    ensures Afloat(T, g, vp, pp, m', x, y, x1, y1, tau)
  {}

  // The packet of x is begun when the cycle begins.
  lemma FirstBegins(T: Topo, g: Routing, vp: Policy, pp: Policy, m: Moment, x: Tok, y: Tok, x1: Tok, y1: Tok, tau: int)
    returns (m': Moment)
    requires Dawn(T, g, vp, pp, m, x, y) && Steady(T, m.net.now, x, y) && Account(T, m.net.now, x, y, tau)
    requires Settled(T, m.net, x, x, tau) && Funded(T) && x.pos.Before? && x.f == Flit(Atom, x.f.pkt, 0)
    requires x.f.pkt !in m.used && x1 == x.To(Inside(0, I)) && y1 == Later(T, m.net.now, y)
    ensures Afloat(T, g, vp, pp, m', x, y, x1, y1, tau) && m'.used == m.used + {x.f.pkt} && m'.net.now == m.net.now
  {
    ComesLawful(T, g, vp, pp, m);
    m' := Starts(T, g, vp, pp, m, x, y);
    SteadySwap(T, m.net.now, x, y);
    BegunNow(T, g, m, m', y, x, x);
    EndsSame(T, m.net.now, y);
    BegunFloats(T, g, vp, pp, m, m', x, y, x1, y1, x, tau);
  }

  lemma StartsSecond(T: Topo, g: Routing, vp: Policy, pp: Policy, m: Moment, x: Tok, y: Tok) returns (m': Moment)
    requires Comes(T, g, vp, pp, m) && Pair(T, g, x, y) && World(m.net, x, y) && m.turned == {} && Funded(T)
    requires y.pos.Before? && y.f == Flit(Atom, y.f.pkt, 0) && y.f.pkt !in m.used
    ensures Comes(T, g, vp, pp, m') && HasBegun(m, m', y) && World(m'.net, x, y.To(Inside(0, I)))
  {
    WorldSwap(T, g, m.net, x, y);
    m' := Starts(T, g, vp, pp, m, y, x);
    WorldSwap(T, g, m'.net, y.To(Inside(0, I)), x);
  }

  // Or that of y.
  lemma SecondBegins(T: Topo, g: Routing, vp: Policy, pp: Policy, m: Moment, x: Tok, y: Tok, x1: Tok, y1: Tok, tau: int)
    returns (m': Moment)
    requires Dawn(T, g, vp, pp, m, x, y) && Steady(T, m.net.now, x, y) && Account(T, m.net.now, x, y, tau)
    requires Settled(T, m.net, x, x, tau) && Funded(T) && y.pos.Before? && y.f == Flit(Atom, y.f.pkt, 0)
    requires y.f.pkt !in m.used && x1 == Later(T, m.net.now, x) && y1 == y.To(Inside(0, I))
    ensures Afloat(T, g, vp, pp, m', x, y, x1, y1, tau) && m'.used == m.used + {y.f.pkt} && m'.net.now == m.net.now
  {
    ComesLawful(T, g, vp, pp, m);
    m' := StartsSecond(T, g, vp, pp, m, x, y);
    BegunNow(T, g, m, m', x, y, y);
    EndsSame(T, m.net.now, x);
    BegunFloats(T, g, vp, pp, m, m', x, y, x1, y1, y, tau);
  }

  // The cycle in which the packet of x is begun.
  lemma DayOfFirst(T: Topo, g: Routing, vp: Policy, pp: Policy, m: Moment, x: Tok, y: Tok, x1: Tok, y1: Tok, tau: int)
    returns (m': Moment)
    requires Dawn(T, g, vp, pp, m, x, y) && Steady(T, m.net.now, x, y) && Account(T, m.net.now, x, y, tau)
    requires Settled(T, m.net, x, x, tau) && Funded(T) && x.pos.Before? && x.f == Flit(Atom, x.f.pkt, 0)
    requires x.f.pkt !in m.used && x1 == x.To(Inside(0, I)) && y1 == Later(T, m.net.now, y)
    ensures Dawn(T, g, vp, pp, m', x1, y1) && Settled(T, m'.net, x1, x1, tau)
    ensures m'.used == m.used + {x.f.pkt} && m'.net.now == m.net.now + 1
  {
    var m1 := FirstBegins(T, g, vp, pp, m, x, y, x1, y1, tau);
    var m2 := Finishes(T, g, vp, pp, m1, x, y, x1, y1, tau);
    m' := Passes(T, g, vp, pp, m2, x, y, x1, y1, tau);
  }

  // The cycle in which the packet of y is begun.
  lemma DayOfSecond(T: Topo, g: Routing, vp: Policy, pp: Policy, m: Moment, x: Tok, y: Tok, x1: Tok, y1: Tok, tau: int)
    returns (m': Moment)
    requires Dawn(T, g, vp, pp, m, x, y) && Steady(T, m.net.now, x, y) && Account(T, m.net.now, x, y, tau)
    requires Settled(T, m.net, x, x, tau) && Funded(T) && y.pos.Before? && y.f == Flit(Atom, y.f.pkt, 0)
    requires y.f.pkt !in m.used && x1 == Later(T, m.net.now, x) && y1 == y.To(Inside(0, I))
    ensures Dawn(T, g, vp, pp, m', x1, y1) && Settled(T, m'.net, x1, x1, tau)
    ensures m'.used == m.used + {y.f.pkt} && m'.net.now == m.net.now + 1
  {
    var m1 := SecondBegins(T, g, vp, pp, m, x, y, x1, y1, tau);
    var m2 := Finishes(T, g, vp, pp, m1, x, y, x1, y1, tau);
    m' := Passes(T, g, vp, pp, m2, x, y, x1, y1, tau);
  }
}
