// The fat tree with its up/down routing never comes to a standstill, with any number of virtual channels.

module FatTreeProgress {
  import opened Wiring
  import opened Coordinates
  import opened Protocol
  import opened Changes
  import opened RoutedPackets
  import opened Progress
  import opened Writers
  import opened Digits
  import opened FatTree
  import opened FatTreeRouting

  // Packets that come from below or from a network interface are on their way up.
  predicate ComesUp(t: Tree, k: VC) { k.pc >= t.way }

  // A packet comes to an input VC as long as it is on a route from src to dest; ca is the level of their common
  // ancestors.
  ghost predicate May(t: Tree, epc: nat, src: nat, dest: nat, ca: nat, eject: int, r: int, k: VC)
    requires t.Valid()
  {
    && OnRoute(t, src, dest, ca, r, ComesUp(t, k)) && t.way <= eject < t.way + epc && 0 <= k.pc
    && (!ComesUp(t, k) ==> t.Level(r) < t.levels - 1)
  }

  // What selectOutPC answers, whichever port is picked on the way up.
  ghost predicate MayOut(t: Tree, dest: nat, ca: nat, eject: int, r: int, k: VC, op: int)
    requires t.Valid()
  {
    if r == dest then op == eject
    else if ComesUp(t, k) && t.Router(r) && t.Level(r) != ca then 0 <= op < t.way
    else t.Router(r) && t.Level(r) >= 1 && IsDownPort(t, r, dest, op)
  }

  // Packet p goes from router src(p) to dest(p). Routing::isOutVCDeadlockFree admits every output VC.
  ghost function TreeRouting(t: Tree, epc: nat, nvc: nat, src: nat -> nat, dest: nat -> nat, ca: nat -> nat,
                             eject: nat -> int, single: bool): Routing
    requires t.Valid()
  {
    Routing(
      (r: int, k: VC, p: nat) => May(t, epc, src(p), dest(p), ca(p), eject(p), r, k),
      (r: int, k: VC, p: nat, op: int) => MayOut(t, dest(p), ca(p), eject(p), r, k, op),
      (r: int, k: VC, p: nat, op: int, ov: int) => 0 <= ov < nvc,
      single)
  }

  // First by level upwards, then by level downwards.
  function RankAt(t: Tree, r: int, k: VC): nat
    requires t.Valid()
  {
    var x := if ComesUp(t, k) then t.Level(r) else 2 * t.levels - t.Level(r);
    if !t.Router(r) || x < 0 then 0 else x
  }

  lemma Links(t: Tree, epc: nat, linkLat: nat, par: Topo, r: int, op: int)
    requires t.Valid() && Network(t, epc, linkLat, par).Down(Port(r, op)).Some?
    ensures t.Router(r) && 0 <= op < 2 * t.way && t.Next(r, op).router != INVALID_ROUTER
    ensures Network(t, epc, linkLat, par).Down(Port(r, op)) == Some(t.Next(r, op))
  {
    assert Port(r, op) in Ports(t);
  }

  lemma EjectNotLinked(t: Tree, epc: nat, linkLat: nat, par: Topo, r: int, op: int)
    requires t.Valid() && t.Router(r) && t.Level(r) == 0 && op >= t.way
    ensures Network(t, epc, linkLat, par).Down(Port(r, op)).None?
  {
    if Network(t, epc, linkLat, par).Down(Port(r, op)).Some? { Links(t, epc, linkLat, par, r, op); }
  }

  // A hop keeps the packet on its route and goes to higher rank.
  lemma HopGood(t: Tree, epc: nat, src: nat, dest: nat, ca: nat, eject: int, r: int, k: VC, op: int, ov: int)
    requires t.Valid() && May(t, epc, src, dest, ca, eject, r, k) && MayOut(t, dest, ca, eject, r, k, op) && r != dest
    requires t.Next(r, op).router != INVALID_ROUTER
    ensures var d := t.Next(r, op);
            May(t, epc, src, dest, ca, eject, d.router, VC(d.pc, ov)) &&
              RankAt(t, r, k) < RankAt(t, d.router, VC(d.pc, ov))
  {
    LevelIndex(t, r);
    if ComesUp(t, k) && t.Level(r) != ca {
      UpKeeps(t, r, op, src);
      if t.Level(r) + 1 == ca { ComeAbove(t, src, dest, ca, t.UpRouter(r, op)); }
    } else {
      ChildDigit(t, r, op - t.way);
      InRangeIff(t, t.DownRouter(r, op - t.way), dest, t.Level(r));
    }
  }

  lemma LinkGood(t: Tree, epc: nat, linkLat: nat, par: Topo, src: nat, dest: nat, ca: nat, eject: int, r: int, k: VC,
                 op: int, ov: int)
    requires t.Valid() && May(t, epc, src, dest, ca, eject, r, k) && MayOut(t, dest, ca, eject, r, k, op)
    requires Network(t, epc, linkLat, par).Down(Port(r, op)).Some?
    ensures var d := Network(t, epc, linkLat, par).Down(Port(r, op)).value;
            May(t, epc, src, dest, ca, eject, d.router, VC(d.pc, ov)) &&
              RankAt(t, r, k) < RankAt(t, d.router, VC(d.pc, ov))
  {
    Links(t, epc, linkLat, par, r, op);
    if r == dest {
      ZeroLevel(t, dest);
      EjectNotLinked(t, epc, linkLat, par, r, op);
    }
    HopGood(t, epc, src, dest, ca, eject, r, k, op, ov);
  }

  lemma RankBounded(t: Tree, r: int, k: VC)
    requires t.Valid()
    ensures RankAt(t, r, k) <= 2 * t.levels
  {
    if t.Router(r) { LevelIndex(t, r); }
  }

  lemma TreeRanked(t: Tree, epc: nat, linkLat: nat, par: Topo, src: nat -> nat, dest: nat -> nat, ca: nat -> nat,
                   eject: nat -> int, single: bool)
    requires t.Valid()
    ensures var T := Network(t, epc, linkLat, par);
            var g := TreeRouting(t, epc, par.nvc, src, dest, ca, eject, single);
            Closed(T, g) && Ranked(T, g, (r, k) => RankAt(t, r, k), 2 * t.levels)
  {
    var T := Network(t, epc, linkLat, par);
    var g := TreeRouting(t, epc, par.nvc, src, dest, ca, eject, single);
    var rank := (r, k) => RankAt(t, r, k);
    forall r, k, p, op, ov | T.ValidVC(r, k) && g.may(r, k, p) && g.out(r, k, p, op) && g.admits(r, k, p, op, ov) &&
      T.Down(Port(r, op)).Some?
      ensures var d := T.Down(Port(r, op)).value;
              g.may(d.router, VC(d.pc, ov), p) && rank(r, k) < rank(d.router, VC(d.pc, ov))
    {
      LinkGood(t, epc, linkLat, par, src(p), dest(p), ca(p), eject(p), r, k, op, ov);
    }
    forall r, k | T.ValidVC(r, k) ensures rank(r, k) <= 2 * t.levels { RankBounded(t, r, k); }
  }

  lemma Linked(t: Tree, epc: nat, linkLat: nat, par: Topo, r: int, pc: int)
    requires t.Valid() && t.Router(r) && 0 <= pc < 2 * t.way && t.Next(r, pc).router != INVALID_ROUTER
    ensures Network(t, epc, linkLat, par).Up(Port(r, pc)).Some?
  {
    NextInvolution(t, r, pc);
    assert Port(r, pc) in Ports(t);
  }

  lemma HasNext(t: Tree, r: int, pc: int)
    requires t.Valid() && t.Router(r) && 0 <= pc < 2 * t.way
    requires if pc < t.way then t.Level(r) < t.levels - 1 else t.Level(r) >= 1
    ensures t.Next(r, pc).router != INVALID_ROUTER
  {
    LevelIndex(t, r);
    if pc < t.way { UpIs(t, r, pc); } else { DownUp(t, r, pc - t.way); }
  }

  lemma Fed(t: Tree, epc: nat, linkLat: nat, par: Topo, r: int, k: VC)
    requires t.Valid() && t.Router(r) && 0 <= k.pc < NumPc(t, epc, r) && (!ComesUp(t, k) ==> t.Level(r) < t.levels - 1)
    requires Network(t, epc, linkLat, par).Up(Port(r, k.pc)).None?
    ensures Network(t, epc, linkLat, par).IsEject(r, k.pc)
  {
    LevelIndex(t, r);
    if k.pc < t.way || t.Level(r) >= 1 {
      HasNext(t, r, k.pc);
      Linked(t, epc, linkLat, par, r, k.pc);
    }
  }

  lemma TreeAdmitting(t: Tree, epc: nat, linkLat: nat, par: Topo, src: nat -> nat, dest: nat -> nat, ca: nat -> nat,
                      eject: nat -> int, single: bool)
    requires t.Valid() && par.nvc >= 1
    ensures var T := Network(t, epc, linkLat, par);
            var g := TreeRouting(t, epc, par.nvc, src, dest, ca, eject, single);
            Admitting(T, g) && Entered(T, g)
  {
    var T := Network(t, epc, linkLat, par);
    var g := TreeRouting(t, epc, par.nvc, src, dest, ca, eject, single);
    forall r, k, p, op | T.ValidVC(r, k) && g.may(r, k, p) && g.out(r, k, p, op)
      ensures exists ov :: 0 <= ov < T.nvc && g.admits(r, k, p, op, ov) {
      assert g.admits(r, k, p, op, 0);
    }
    forall r, k, p | T.ValidVC(r, k) && g.may(r, k, p) && T.Up(Port(r, k.pc)).None? ensures T.IsEject(r, k.pc) {
      assert May(t, epc, src(p), dest(p), ca(p), eject(p), r, k);
      Fed(t, epc, linkLat, par, r, k);
    }
  }

  // Even with one VC, whichever up ports are picked: while a flit is buffered, one can move.
  lemma FatTreeNeverStuck(t: Tree, epc: nat, linkLat: nat, par: Topo, src: nat -> nat, dest: nat -> nat, ca: nat -> nat,
                          eject: nat -> int, single: bool)
    requires t.Valid() && linkLat >= 1 && par.nvc >= 1 && Covered(par) && Guarded(par, single)
    ensures AlwaysGoesOn(Network(t, epc, linkLat, par),
                         TreeRouting(t, epc, par.nvc, src, dest, ca, eject, single))
  {
    TreeRanked(t, epc, linkLat, par, src, dest, ca, eject, single);
    TreeAdmitting(t, epc, linkLat, par, src, dest, ca, eject, single);
    NeverStuck(Network(t, epc, linkLat, par), TreeRouting(t, epc, par.nvc, src, dest, ca, eject, single),
               (r, k) => RankAt(t, r, k), 2 * t.levels);
  }
}
