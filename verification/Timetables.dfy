// When a flit that nobody holds up is where: how long it is in a router and on a wire, and how two flits come by
// the same router one after the other.

module Timetables {
  import opened Wiring
  import opened Flits
  import opened Protocol
  import opened Invariant
  import opened Changes
  import opened Timing
  import opened Travels
  import opened Cycles

  // The cycles a flit is in a router, from the one after it enters to the one in which it leaves.
  function Dwell(T: Topo): nat { if T.lookahead then (if T.spec then 2 else 3) else if T.spec then 3 else 4 }

  // The state of its input module, w cycles after the first of them.
  function Stage(T: Topo, w: int): InState {
    if w <= 0 then I
    else if w >= Dwell(T) - 1 then S
    else if T.lookahead || w == 2 then V
    else R
  }

  function Leg(T: Topo, t: Trip, h: nat): nat { T.Lat(Port(t.Router(h), t.Out(h))) }

  // The first cycle that finds the flit in its h-th router, if its packet is begun in cycle t0.
  function Entry(T: Topo, t: Trip, t0: int, h: nat): int {
    if h == 0 then t0 + 1
    else if h == 1 then t0 + 1 + Dwell(T) + Leg(T, t, 0)
    else t0 + 1 + Dwell(T) + Leg(T, t, 0) + Dwell(T) + Leg(T, t, 1)
  }

  // The cycle in which it leaves its h-th router.
  function Exit(T: Topo, t: Trip, t0: int, h: nat): int { Entry(T, t, t0, h) + Dwell(T) - 1 }

  function HopAt(T: Topo, t: Trip, t0: int, n: nat): nat {
    if n < Entry(T, t, t0, 1) then 0 else if n < Entry(T, t, t0, 2) then 1 else 2
  }

  // Where it is when cycle n begins.
  function PosAt(T: Topo, t: Trip, t0: int, n: nat): Pos {
    var h := HopAt(T, t, t0, n);
    if n <= t0 then Before
    else if n <= Exit(T, t, t0, h) then Inside(h, Stage(T, n - Entry(T, t, t0, h)))
    else if T.IsEject(t.Router(h), t.Out(h)) then Gone
    else Flying(h, Exit(T, t, t0, h))
  }

  function TokAt(T: Topo, t: Trip, pkt: nat, t0: int, n: nat): Tok { Tok(t, Flit(Atom, pkt, 0), PosAt(T, t, t0, n)) }

  lemma Legs(T: Topo, t: Trip, h: nat)
    requires T.Valid() && TripOk(T, t) && h < 2
    ensures Leg(T, t, h) >= 1 && !T.IsEject(t.Router(h), t.Out(h)) && NextPort(t, h).router != t.Router(h)
    ensures T.Down(Port(t.Router(h), t.Out(h))) == Some(NextPort(t, h)) && t.Router(h + 1) == NextPort(t, h).router
  {
    T.WiredAt(Port(t.Router(h), t.Out(h)), NextPort(t, h));
  }

  // A router takes it from stage to stage ...
  lemma NextStage(T: Topo, now: int, x: Tok, w: nat)
    requires x.pos.Inside? && x.pos.st == Stage(T, w) && w < Dwell(T) - 1
    ensures Later(T, now, x) == Step(x, Stage(T, w + 1))
  {}

  // ... and sends it on.
  lemma NextWire(T: Topo, now: int, x: Tok)
    requires x.pos.Inside? && x.pos.st.S?
    ensures Later(T, now, x) ==
            x.To(if T.IsEject(x.t.Router(x.pos.h), x.t.Out(x.pos.h)) then Gone else Flying(x.pos.h, now))
  {}

  // The wire delivers it when it is due.
  lemma NextRouter(T: Topo, now: int, x: Tok)
    requires T.Valid() && TripOk(T, x.t) && x.pos.Flying? && x.pos.h < 2
    ensures Later(T, now, x) == if DueAt(T, now, x) then x.To(Inside(x.pos.h + 1, I)) else x
  {
    Legs(T, x.t, x.pos.h);
  }

  lemma TokNext(T: Topo, t: Trip, pkt: nat, t0: int, n: nat)
    requires T.Valid() && TripOk(T, t) && n != t0 && n <= Exit(T, t, t0, 2)
    ensures Later(T, n, TokAt(T, t, pkt, t0, n)) == TokAt(T, t, pkt, t0, n + 1)
  {
    var x, h := TokAt(T, t, pkt, t0, n), HopAt(T, t, t0, n);
    Legs(T, t, 0);
    Legs(T, t, 1);
    if n > t0 {
      if n < Exit(T, t, t0, h) {
        NextStage(T, n, x, n - Entry(T, t, t0, h));
      } else if n == Exit(T, t, t0, h) {
        NextWire(T, n, x);
      } else {
        NextRouter(T, n, x);
      }
    }
  }

  lemma TokFirst(T: Topo, t: Trip, pkt: nat, t0: nat)
    requires T.Valid() && TripOk(T, t)
    ensures TokAt(T, t, pkt, t0, t0).pos.Before? &&
            TokAt(T, t, pkt, t0, t0 + 1) == TokAt(T, t, pkt, t0, t0).To(Inside(0, I))
  {}

  // ---------- two trips by way of one router ----------

  // The wire to the second router of trip a is longer by more than one cycle than that of trip b; up to the router
  // where they meet both take the same time.
  ghost predicate Crossroads(T: Topo, g: Routing, a: Trip, b: Trip) {
    && T.Valid() && Funded(T) && TripOk(T, a) && TripOk(T, b) && LawfulTrip(T, g, a, 0) && LawfulTrip(T, g, b, 1)
    && a.i.router == b.i.router && Leg(T, a, 0) == Leg(T, b, 0) && Leg(T, a, 1) > Leg(T, b, 1) + 1 && a.o != b.o
    && a.u != b.u && a.u != a.d.router && b.u != a.d.router && a.d.router != b.d.router && T.IsEject(b.d.router, b.x)
  }

  // The packet of b is begun so much later that its flit leaves its last router one cycle after that of a.
  function Lag(T: Topo, a: Trip, b: Trip): int { Leg(T, a, 1) - Leg(T, b, 1) + 1 }

  lemma Spots(T: Topo, g: Routing, a: Trip, b: Trip)
    requires Crossroads(T, g, a, b)
    ensures a.i.pc != b.i.pc && (a.u == b.d.router ==> a.k.pc != b.d.pc && a.p != b.x)
  {
    T.WiredAt(Port(a.u, a.p), a.i);
    T.WiredAt(Port(b.u, b.p), b.i);
    T.WiredAt(Port(b.i.router, b.o), b.d);
  }

  lemma CrossPair(T: Topo, g: Routing, a: Trip, b: Trip, x: Tok, y: Tok)
    requires Crossroads(T, g, a, b) && TokOk(T, g, x) && TokOk(T, g, y) && x.t == a && y.t == b
    ensures Pair(T, g, x, y)
  {
    Spots(T, g, a, b);
    Legs(T, a, 0);
    Legs(T, b, 0);
  }

  function FirstAt(T: Topo, a: Trip, b: Trip, n: nat): Tok { TokAt(T, a, 0, 0, n) }

  function SecondAt(T: Topo, a: Trip, b: Trip, n: nat): Tok { TokAt(T, b, 1, Lag(T, a, b), n) }

  lemma PairAt(T: Topo, g: Routing, a: Trip, b: Trip, n: nat)
    requires Crossroads(T, g, a, b)
    ensures Pair(T, g, FirstAt(T, a, b, n), SecondAt(T, a, b, n))
  {
    CrossPair(T, g, a, b, FirstAt(T, a, b, n), SecondAt(T, a, b, n));
  }

  lemma LastExits(T: Topo, g: Routing, a: Trip, b: Trip)
    requires Crossroads(T, g, a, b)
    ensures Exit(T, b, Lag(T, a, b), 2) == Exit(T, a, 0, 2) + 1 && Lag(T, a, b) >= 3
  {}

  // As long as the first has not left, they are in the same router only where they meet ...
  lemma MeetThere(T: Topo, g: Routing, a: Trip, b: Trip, n: nat, z: int)
    requires Crossroads(T, g, a, b) && n <= Exit(T, a, 0, 2) && FirstAt(T, a, b, n).At(z) && SecondAt(T, a, b, n).At(z)
    ensures FirstAt(T, a, b, n).pos.h == SecondAt(T, a, b, n).pos.h == 1
  {
    LastExits(T, g, a, b);
    Legs(T, a, 0);
    Legs(T, b, 0);
    Legs(T, a, 1);
    Legs(T, b, 1);
  }

  // ... and there the second comes when the first has all but gone.
  lemma PassBy(T: Topo, g: Routing, a: Trip, b: Trip, n: nat)
    requires Crossroads(T, g, a, b) && HopAt(T, a, 0, n) == HopAt(T, b, Lag(T, a, b), n) == 1 && n > Lag(T, a, b)
    ensures n >= Exit(T, a, 0, 1) && (n == Exit(T, a, 0, 1) ==> n < Exit(T, b, Lag(T, a, b), 1))
    ensures var x, y := FirstAt(T, a, b, n), SecondAt(T, a, b, n); !(DueAt(T, n, x) && DueAt(T, n, y))
  {
    LastExits(T, g, a, b);
  }

  lemma SteadyAt(T: Topo, g: Routing, a: Trip, b: Trip, n: nat)
    requires Crossroads(T, g, a, b) && n <= Exit(T, a, 0, 2)
    ensures Steady(T, n, FirstAt(T, a, b, n), SecondAt(T, a, b, n))
  {
    var x, y := FirstAt(T, a, b, n), SecondAt(T, a, b, n);
    LastExits(T, g, a, b);
    forall z ensures OneMoves(T, n, z, x, y) && OneActs(z, x, y, true, true) {
      if x.At(z) && y.At(z) {
        MeetThere(T, g, a, b, n, z);
        PassBy(T, g, a, b, n);
      }
    }
  }

  // Only the first leaves its last router, and in the cycle its timetable has for it.
  lemma AccountAt(T: Topo, g: Routing, a: Trip, b: Trip, n: nat)
    requires Crossroads(T, g, a, b) && n <= Exit(T, a, 0, 2)
    ensures Account(T, n, FirstAt(T, a, b, n), SecondAt(T, a, b, n), Exit(T, a, 0, 2))
  {
    LastExits(T, g, a, b);
    Legs(T, b, 0);
    Legs(T, b, 1);
  }

  // Where a cycle takes them: each moves on, but in the cycle in which its packet is begun.
  lemma FirstNext(T: Topo, g: Routing, a: Trip, b: Trip, n: nat)
    requires Crossroads(T, g, a, b) && n <= Exit(T, a, 0, 2)
    ensures var x, x' := FirstAt(T, a, b, n), FirstAt(T, a, b, n + 1);
            if n == 0 then x.pos.Before? && x' == x.To(Inside(0, I)) else x' == Later(T, n, x)
  {
    if n == 0 { TokFirst(T, a, 0, 0); } else { TokNext(T, a, 0, 0, n); }
  }

  lemma SecondNext(T: Topo, g: Routing, a: Trip, b: Trip, n: nat)
    requires Crossroads(T, g, a, b) && n <= Exit(T, a, 0, 2)
    ensures var y, y' := SecondAt(T, a, b, n), SecondAt(T, a, b, n + 1);
            if n == Lag(T, a, b) then y.pos.Before? && y' == y.To(Inside(0, I)) else y' == Later(T, n, y)
  {
    LastExits(T, g, a, b);
    if n == Lag(T, a, b) { TokFirst(T, b, 1, n); } else { TokNext(T, b, 1, Lag(T, a, b), n); }
  }
}
