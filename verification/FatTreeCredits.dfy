// The credits of a fat tree: on which trees deposits come back in the order in which they fall due.

module FatTreeCredits {
  import opened Wiring
  import opened Coordinates
  import opened Protocol
  import opened Runs
  import opened Changes
  import opened CreditOrder
  import opened Priorities
  import opened Timing
  import opened Travels
  import opened Timetables
  import opened CreditDelays
  import opened Digits
  import opened FatTree
  import opened FatTreeRouting
  import opened FatTreeProgress

  lemma TreeLinkOnly(t: Tree, epc: nat, linkLat: nat, par: Topo, id: int, pc: int)
    requires t.Valid() && Network(t, epc, linkLat, par).Down(Port(id, pc)).Some?
    ensures t.Router(id) && 0 <= pc < 2 * t.way && t.Next(id, pc).router != INVALID_ROUTER
  {
    assert Port(id, pc) in Ports(t);
  }

  // With two levels all wires are equally long ...
  lemma TwoLevelsOneLatency(t: Tree, epc: nat, linkLat: nat, par: Topo, r: int, op: int)
    requires t.Valid() && t.levels == 2 && Network(t, epc, linkLat, par).Down(Port(r, op)).Some?
    ensures Network(t, epc, linkLat, par).Lat(Port(r, op)) == Pow(2, 1) * linkLat
  {
    TreeLinkOnly(t, epc, linkLat, par, r, op);
    LevelIndex(t, r);
    TreeLink(t, epc, linkLat, par, r, op);
  }

  // Router r of level 1, its child c other than router 0, and its parent top.
  ghost predicate Family(t: Tree, r: int, c: int, top: int)
    requires t.Valid()
  {
    && t.Router(0) && t.Router(r) && t.Router(c) && t.Router(top) && c != 0
    && t.Level(0) == 0 && t.Level(c) == 0 && t.Level(r) == 1 && t.Level(top) == 2
    && t.Next(0, 0) == Port(r, t.way) && t.Next(c, 1) == Port(r, t.way + 1)
    && t.Next(r, 0) == Port(top, t.way) && t.Next(r, t.way + 1) == Port(c, 1)
    && t.Next(top, t.way + 1).router != INVALID_ROUTER
    && r == t.UpRouter(0, 0) == t.UpRouter(c, 1) && top == t.UpRouter(r, 0)
  }

  lemma TheFamily(t: Tree) returns (r: int, c: int, top: int)
    requires t.Valid() && t.levels >= 3
    ensures Family(t, r, c, top)
  {
    LevelZero(t, 0);
    UpIs(t, 0, 0);
    UpDown(t, 0, 0);
    r := t.UpRouter(0, 0);
    DownUp(t, r, 1);
    c := t.DownRouter(r, 1);
    UpIs(t, r, 0);
    top := t.UpRouter(r, 0);
    DownUp(t, top, 1);
    ChildrenDiffer(t, r);
    LevelIndex(t, t.DownRouter(top, 1));
  }

  function UpTripOf(t: Tree, r: int, c: int, top: int): Trip {
    Trip(c, VC(t.way, 0), 1, Port(r, t.way + 1), 0, Port(top, t.way), t.way + 1)
  }

  function DownTripOf(t: Tree, r: int, c: int): Trip {
    Trip(0, VC(t.way, 0), 0, Port(r, t.way), t.way + 1, Port(c, 1), t.way)
  }

  // The first port of a network interface.
  lemma AtBottom(t: Tree, epc: nat, linkLat: nat, par: Topo, c: int)
    requires t.Valid() && epc >= 1 && par.nvc >= 1 && t.Router(c) && t.Level(c) == 0
    ensures var T := Network(t, epc, linkLat, par);
            T.ValidVC(c, VC(t.way, 0)) && T.IsEject(c, t.way) && T.Routable(c, t.way)
  {
    LevelIndex(t, c);
  }

  lemma Linked(t: Tree, epc: nat, linkLat: nat, par: Topo, id: int, pc: int)
    requires t.Valid() && t.Router(id) && t.Level(id) > 0 && 0 <= pc < 2 * t.way &&
             t.Next(id, pc).router != INVALID_ROUTER
    ensures Network(t, epc, linkLat, par).Routable(id, pc)
  {
    LevelIndex(t, id);
    TreeLink(t, epc, linkLat, par, id, pc);
  }

  lemma UpTrip(t: Tree, epc: nat, linkLat: nat, par: Topo, r: int, c: int, top: int)
    requires t.Valid() && epc >= 1 && par.nvc >= 1 && Family(t, r, c, top)
    ensures TripOk(Network(t, epc, linkLat, par), UpTripOf(t, r, c, top))
  {
    AtBottom(t, epc, linkLat, par, c);
    TreeLink(t, epc, linkLat, par, c, 1);
    TreeLink(t, epc, linkLat, par, r, 0);
    Linked(t, epc, linkLat, par, top, t.way + 1);
  }

  lemma DownTrip(t: Tree, epc: nat, linkLat: nat, par: Topo, r: int, c: int, top: int)
    requires t.Valid() && epc >= 1 && par.nvc >= 1 && Family(t, r, c, top)
    ensures TripOk(Network(t, epc, linkLat, par), DownTripOf(t, r, c)) &&
            Network(t, epc, linkLat, par).IsEject(c, t.way)
  {
    AtBottom(t, epc, linkLat, par, 0);
    AtBottom(t, epc, linkLat, par, c);
    TreeLink(t, epc, linkLat, par, 0, 0);
    TreeLink(t, epc, linkLat, par, r, t.way + 1);
  }

  // A router of level 0 below another child of top than r.
  lemma Cousin(t: Tree, r: int, c: int, top: int) returns (e: int)
    requires t.Valid() && t.levels >= 3 && Family(t, r, c, top)
    ensures 0 <= e < t.Width() && c != e && c >= 0 && IsCaLevel(t, c, e, 2) && IsDownPort(t, top, e, t.way + 1)
  {
    DownUp(t, top, 1);
    var d := t.DownRouter(top, 1);
    DownUp(t, d, 0);
    e := t.DownRouter(d, 0);
    LevelIndex(t, e);
    LevelIndex(t, d);
    LevelIndex(t, r);
    LevelIndex(t, c);
    UpKeeps(t, e, 0, e);
    InRangeIff(t, d, e, 2);
    UpKeeps(t, d, 1, e);
    UpKeeps(t, r, 0, e);
    UpKeeps(t, c, 1, c);
    MeetAbove(t, t.Index(r), c, 1);
    NotSiblings(t, r, c, top, d, e);
  }

  lemma NotSiblings(t: Tree, r: int, c: int, top: int, d: int, e: int)
    requires t.Valid() && t.levels >= 3 && Family(t, r, c, top) && t.Router(d) && d == t.DownRouter(top, 1)
    requires 0 <= e < t.Width() && t.Level(d) == 1 && Above(t, d, e) && 0 <= c < t.Width() && Above(t, r, c)
    ensures !Meet(t, c, e, 1) && !Meet(t, c, e, 0)
  {
    if Meet(t, c, e, 0) { MeetAbove(t, c, e, 0); }
    if Meet(t, c, e, 1) {
      LevelIndex(t, r);
      UpDown(t, r, 0);
      UpKeeps(t, r, 0, c);
      UpKeeps(t, r, 0, e);
      InRangeIff(t, r, e, 2);
      InRangeIff(t, d, e, 2);
      var p := ExactlyOneChild(t, top, e);
    }
  }

  lemma Siblings(t: Tree, r: int, c: int, top: int)
    requires t.Valid() && t.levels >= 3 && Family(t, r, c, top)
    ensures 0 <= c < t.Width() && IsCaLevel(t, 0, c, 1) && IsDownPort(t, r, c, t.way + 1)
  {
    LevelIndex(t, c);
    LevelZero(t, 0);
    LevelIndex(t, 0);
    UpKeeps(t, 0, 0, c);
    UpKeeps(t, c, 1, c);
    InRangeIff(t, c, c, 1);
  }

  // One value for packet 0, another for the rest.
  function EitherOf(x: nat, y: nat): nat -> nat { (p: nat) => if p == 0 then x else y }

  function OutBy(op: int): nat -> int { (_: nat) => op }

  // The packets of the two trips: from c to its cousin e, and from router 0 to c.
  ghost function TwoPackets(t: Tree, epc: nat, nvc: nat, c: nat, e: nat): Routing
    requires t.Valid()
  {
    TreeRouting(t, epc, nvc, EitherOf(c, 0), EitherOf(e, c), EitherOf(2, 1), OutBy(t.way), true)
  }

  lemma UpMay(t: Tree, epc: nat, r: int, c: nat, top: int, e: nat)
    requires t.Valid() && t.levels >= 3 && epc >= 1 && Family(t, r, c, top)
    requires c < t.Width() && e < t.Width() && c != e && IsCaLevel(t, c, e, 2) && IsDownPort(t, top, e, t.way + 1)
    ensures May(t, epc, c, e, 2, t.way, c, VC(t.way, 0)) && MayOut(t, e, 2, t.way, c, VC(t.way, 0), 1)
    ensures MayOut(t, e, 2, t.way, r, VC(t.way + 1, 0), 0) && MayOut(t, e, 2, t.way, top, VC(t.way, 0), t.way + 1)
  {
    StartPhase(t, c, e, 2);
    ZeroLevel(t, e);
  }

  lemma UpLawful(t: Tree, epc: nat, linkLat: nat, par: Topo, r: int, c: nat, top: int, e: nat)
    requires t.Valid() && t.levels >= 3 && epc >= 1 && Family(t, r, c, top)
    requires c < t.Width() && e < t.Width() && c != e && IsCaLevel(t, c, e, 2) && IsDownPort(t, top, e, t.way + 1)
    ensures LawfulTrip(Network(t, epc, linkLat, par), TwoPackets(t, epc, par.nvc, c, e), UpTripOf(t, r, c, top), 0)
  {
    UpMay(t, epc, r, c, top, e);
    TwoPacketsAre(t, epc, par.nvc, c, e);
    assert Network(t, epc, linkLat, par).nvc == par.nvc;
  }

  // What the routing function says of the two packets.
  lemma TwoPacketsAre(t: Tree, epc: nat, nvc: nat, c: nat, e: nat)
    requires t.Valid()
    ensures var g := TwoPackets(t, epc, nvc, c, e);
            && (forall x, k {:trigger g.may(x, k, 0)} :: g.may(x, k, 0) <==> May(t, epc, c, e, 2, t.way, x, k))
            && (forall x, k {:trigger g.may(x, k, 1)} :: g.may(x, k, 1) <==> May(t, epc, 0, c, 1, t.way, x, k))
            && (forall x, k, op {:trigger g.out(x, k, 0, op)} ::
                g.out(x, k, 0, op) <==> MayOut(t, e, 2, t.way, x, k, op))
            && (forall x, k, op {:trigger g.out(x, k, 1, op)} ::
                g.out(x, k, 1, op) <==> MayOut(t, c, 1, t.way, x, k, op))
            && (forall x, k, p, op, ov {:trigger g.admits(x, k, p, op, ov)} ::
                g.admits(x, k, p, op, ov) <==> 0 <= ov < nvc)
  {}

  lemma DownMay(t: Tree, epc: nat, r: int, c: nat, top: int)
    requires t.Valid() && t.levels >= 3 && epc >= 1 && Family(t, r, c, top)
    requires c < t.Width() && IsCaLevel(t, 0, c, 1) && IsDownPort(t, r, c, t.way + 1)
    ensures May(t, epc, 0, c, 1, t.way, 0, VC(t.way, 0)) && MayOut(t, c, 1, t.way, 0, VC(t.way, 0), 0)
    ensures MayOut(t, c, 1, t.way, r, VC(t.way, 0), t.way + 1) && MayOut(t, c, 1, t.way, c, VC(1, 0), t.way)
  {
    StartPhase(t, 0, c, 1);
  }

  lemma DownLawful(t: Tree, epc: nat, linkLat: nat, par: Topo, r: int, c: nat, top: int, e: nat)
    requires t.Valid() && t.levels >= 3 && epc >= 1 && Family(t, r, c, top)
    requires c < t.Width() && IsCaLevel(t, 0, c, 1) && IsDownPort(t, r, c, t.way + 1)
    ensures LawfulTrip(Network(t, epc, linkLat, par), TwoPackets(t, epc, par.nvc, c, e), DownTripOf(t, r, c), 1)
  {
    DownMay(t, epc, r, c, top);
    TwoPacketsAre(t, epc, par.nvc, c, e);
    assert Network(t, epc, linkLat, par).nvc == par.nvc;
  }

  lemma Longer(linkLat: nat)
    requires linkLat >= 1
    ensures Pow(2, 2) * linkLat > Pow(2, 1) * linkLat + 1
  {
    assert Pow(2, 1) == 2 * Pow(2, 0) && Pow(2, 2) == 2 * Pow(2, 1);
  }

  lemma TreeLegs(t: Tree, epc: nat, linkLat: nat, par: Topo, r: int, c: int, top: int)
    requires t.Valid() && linkLat >= 1 && Family(t, r, c, top)
    ensures var T, a, b := Network(t, epc, linkLat, par), UpTripOf(t, r, c, top), DownTripOf(t, r, c);
            Leg(T, a, 0) == Leg(T, b, 0) && Leg(T, a, 1) > Leg(T, b, 1) + 1
  {
    TreeLink(t, epc, linkLat, par, r, 0);
    TreeLink(t, epc, linkLat, par, r, t.way + 1);
    TreeLink(t, epc, linkLat, par, c, 1);
    TreeLink(t, epc, linkLat, par, 0, 0);
    Longer(linkLat);
  }

  // ... and with three a router of level 1 lies between a longer wire up and a shorter one down: one packet from its
  // child c goes up at it, another from child 0 down to c, as the routing function has it, and both come to it over
  // wires of the same length.
  lemma TreeCrossroads(t: Tree, epc: nat, linkLat: nat, par: Topo) returns (c: nat, e: nat, a: Trip, b: Trip)
    requires t.Valid() && t.levels >= 3 && epc >= 1 && linkLat >= 1 && Funded(par)
    ensures Crossroads(Network(t, epc, linkLat, par), TwoPackets(t, epc, par.nvc, c, e), a, b)
  {
    FatTreeNetworkValid(t, epc, linkLat, par);
    var r, child, top := TheFamily(t);
    Siblings(t, r, child, top);
    c := child;
    e := Cousin(t, r, c, top);
    a, b := UpTripOf(t, r, c, top), DownTripOf(t, r, c);
    UpTrip(t, epc, linkLat, par, r, c, top);
    DownTrip(t, epc, linkLat, par, r, c, top);
    UpLawful(t, epc, linkLat, par, r, c, top, e);
    DownLawful(t, epc, linkLat, par, r, c, top, e);
    TreeLegs(t, epc, linkLat, par, r, c, top);
  }

  lemma ChildrenDiffer(t: Tree, r: int)
    requires t.Valid() && t.Router(r) && t.Level(r) >= 1
    ensures t.DownRouter(r, 0) != t.DownRouter(r, 1)
  {
    DownUp(t, r, 0);
    DownUp(t, r, 1);
    LevelIndex(t, r);
    if t.DownRouter(r, 0) == t.DownRouter(r, 1) { UpDistinct(t, t.DownRouter(r, 0), 0, 1); }
  }

  // The program comes to a moment on such a tree at which a router's deposits are out of order, whatever the arbiters'
  // policies are. The up ports of the run are those a random choice may pick.
  lemma TreeBreaksOrder(t: Tree, epc: nat, linkLat: nat, par: Topo, vp: Policy, pp: Policy)
    returns (c: nat, e: nat, m: Moment, r: int)
    requires t.Valid() && t.levels >= 3 && epc >= 1 && linkLat >= 1 && Funded(par)
    ensures Comes(Network(t, epc, linkLat, par), TwoPackets(t, epc, par.nvc, c, e), vp, pp, m)
    ensures 0 <= r < |m.net.rs| && !InClockOrder(m.net.rs[r].deps)
  {
    var a, b;
    c, e, a, b := TreeCrossroads(t, epc, linkLat, par);
    r := a.i.router;
    m := BreaksOrder(Network(t, epc, linkLat, par), TwoPackets(t, epc, par.nvc, c, e), vp, pp, a, b);
  }

  // The program comes to this moment with packets from some routers to others.
  ghost predicate TreeComes(t: Tree, epc: nat, linkLat: nat, par: Topo, vp: Policy, pp: Policy, m: Moment)
    requires t.Valid()
  {
    exists src: nat -> nat, dest: nat -> nat, ca: nat -> nat, eject: nat -> int, single ::
      Comes(Network(t, epc, linkLat, par), TreeRouting(t, epc, par.nvc, src, dest, ca, eject, single), vp, pp, m)
  }

  ghost predicate TimedInClockOrder(t: Tree, epc: nat, linkLat: nat, par: Topo, vp: Policy, pp: Policy)
    requires t.Valid()
  {
    forall m, r {:trigger TreeComes(t, epc, linkLat, par, vp, pp, m), m.net.rs[r]} ::
      TreeComes(t, epc, linkLat, par, vp, pp, m) && 0 <= r < |m.net.rs| ==> InClockOrder(m.net.rs[r].deps)
  }

  lemma TwoLevelsInOrder(t: Tree, epc: nat, linkLat: nat, par: Topo)
    requires t.Valid() && t.levels == 2
    ensures AlwaysInClockOrder(Network(t, epc, linkLat, par))
  {
    var T := Network(t, epc, linkLat, par);
    forall r ensures OneLatency(T, r) {
      forall op, op' | T.Down(Port(r, op)).Some? && T.Down(Port(r, op')).Some?
        ensures T.Lat(Port(r, op)) == T.Lat(Port(r, op')) {
        TwoLevelsOneLatency(t, epc, linkLat, par, r, op);
        TwoLevelsOneLatency(t, epc, linkLat, par, r, op');
      }
    }
    OneLatencyEverywhere(T);
  }

  lemma AlwaysIsTimed(t: Tree, epc: nat, linkLat: nat, par: Topo, vp: Policy, pp: Policy)
    requires t.Valid() && AlwaysInClockOrder(Network(t, epc, linkLat, par))
    ensures TimedInClockOrder(t, epc, linkLat, par, vp, pp)
  {
    var T := Network(t, epc, linkLat, par);
    forall m, r | TreeComes(t, epc, linkLat, par, vp, pp, m) && 0 <= r < |m.net.rs|
      ensures InClockOrder(m.net.rs[r].deps)
    {
      var src: nat -> nat, dest: nat -> nat, ca: nat -> nat, eject: nat -> int, single :|
        Comes(T, TreeRouting(t, epc, par.nvc, src, dest, ca, eject, single), vp, pp, m);
      ComesLawful(T, TreeRouting(t, epc, par.nvc, src, dest, ca, eject, single), vp, pp, m);
      LawfulIsReachable(T, TreeRouting(t, epc, par.nvc, src, dest, ca, eject, single), m.net);
    }
  }

  lemma ComesBy(t: Tree, epc: nat, linkLat: nat, par: Topo, vp: Policy, pp: Policy, m: Moment, src: nat -> nat,
                dest: nat -> nat, ca: nat -> nat, eject: nat -> int, single: bool)
    requires t.Valid()
    requires Comes(Network(t, epc, linkLat, par), TreeRouting(t, epc, par.nvc, src, dest, ca, eject, single), vp, pp, m)
    ensures TreeComes(t, epc, linkLat, par, vp, pp, m)
  {}

  lemma ThreeLevelsBreak(t: Tree, epc: nat, linkLat: nat, par: Topo, vp: Policy, pp: Policy)
    requires t.Valid() && t.levels >= 3 && epc >= 1 && linkLat >= 1 && Funded(par)
    ensures !TimedInClockOrder(t, epc, linkLat, par, vp, pp)
  {
    var c, e, m, r := TreeBreaksOrder(t, epc, linkLat, par, vp, pp);
    ComesBy(t, epc, linkLat, par, vp, pp, m, EitherOf(c, 0), EitherOf(e, c), EitherOf(2, 1), OutBy(t.way), true);
  }

  // So the comment is right of a fat tree exactly when it has two levels, both of the reachable states and of the
  // moments the program comes to.
  lemma FatTreeInClockOrderIff(t: Tree, epc: nat, linkLat: nat, par: Topo, vp: Policy, pp: Policy)
    requires t.Valid() && epc >= 1 && linkLat >= 1 && Funded(par)
    ensures TimedInClockOrder(t, epc, linkLat, par, vp, pp) <==> t.levels == 2
    ensures AlwaysInClockOrder(Network(t, epc, linkLat, par)) <==> t.levels == 2
  {
    if t.levels == 2 {
      TwoLevelsInOrder(t, epc, linkLat, par);
      AlwaysIsTimed(t, epc, linkLat, par, vp, pp);
    } else {
      ThreeLevelsBreak(t, epc, linkLat, par, vp, pp);
      if AlwaysInClockOrder(Network(t, epc, linkLat, par)) { AlwaysIsTimed(t, epc, linkLat, par, vp, pp); }
    }
  }
}
