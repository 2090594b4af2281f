// The torus with its dimension-ordered routing never comes to a standstill.

module TorusProgress {
  import opened Wiring
  import opened Coordinates
  import opened Protocol
  import opened Changes
  import opened RoutedPackets
  import opened Progress
  import opened Writers
  import opened Deadlock
  import opened Torus

  // A packet for router dest, to leave there by port eject, comes to an input VC by a hop that selectOutPC and
  // isOutVCDeadlockFree allow.
  predicate May(t: Grid, epc: nat, nvc: nat, dest: int, eject: int, r: int, k: VC)
    requires t.Valid()
  {
    && t.Router(r) && t.Router(dest) && 4 <= eject < 4 + epc
    && (Internal(k.pc) ==>
          var u := NextConn(t, r, k.pc);
          u.router != dest && Hop(t, nvc, eject, dest, Channel(u.router, u.pc, k.vc)))
  }

  // Packet p goes to router dest(p) and leaves there by port eject(p).
  function TorusRouting(t: Grid, epc: nat, nvc: nat, dest: nat -> int, eject: nat -> int, single: bool): Routing
    requires t.Valid()
  {
    Routing(
      (r: int, k: VC, p: nat) => May(t, epc, nvc, dest(p), eject(p), r, k),
      (r: int, k: VC, p: nat, op: int) => op == SelectOutPC(t, r, dest(p), eject(p)),
      (r: int, k: VC, p: nat, op: int, ov: int) => 0 <= ov < nvc && Admits(t, ov, r, dest(p), nvc),
      single)
  }

  // The rank of the channel that feeds an input VC.
  function RankAt(t: Grid, nvc: nat, r: int, k: VC): nat
    requires t.Valid()
  {
    if !t.Router(r) || !Internal(k.pc) then 0
    else
      var u := NextConn(t, r, k.pc);
      var x := Rank(t, nvc, Channel(u.router, u.pc, k.vc));
      if x < 0 then 0 else x + 1
  }

  lemma Links(t: Grid, epc: nat, linkLat: nat, par: Topo, r: int, op: int)
    requires t.Valid() && Network(t, epc, linkLat, par).Down(Port(r, op)).Some?
    ensures var d := NextConn(t, r, op);
            && t.Router(r) && Internal(op) && Network(t, epc, linkLat, par).Down(Port(r, op)) == Some(d)
            && t.Router(d.router) && Internal(d.pc) && NextConn(t, d.router, d.pc) == Port(r, op)
  {
    assert Port(r, op) in Ports(t);
    NextConnInvolution(t, r, op);
  }

  lemma Fed(t: Grid, epc: nat, linkLat: nat, par: Topo, r: int, pc: int)
    requires t.Valid() && t.Router(r) && Internal(pc)
    ensures Network(t, epc, linkLat, par).Up(Port(r, pc)).Some?
  {
    NextConnInvolution(t, r, pc);
    assert Port(r, pc) in Ports(t);
  }

  // A hop leads where the routing function may bring the packet, and to higher rank.
  lemma HopGood(t: Grid, epc: nat, linkLat: nat, par: Topo, dest: nat -> int, eject: nat -> int, single: bool,
                r: int, k: VC, p: nat, op: int, ov: int)
    requires t.Valid() && par.nvc >= 2 && Network(t, epc, linkLat, par).Down(Port(r, op)).Some?
    requires var g := TorusRouting(t, epc, par.nvc, dest, eject, single);
             g.may(r, k, p) && g.out(r, k, p, op) && g.admits(r, k, p, op, ov)
    ensures var d := NextConn(t, r, op);
            && TorusRouting(t, epc, par.nvc, dest, eject, single).may(d.router, VC(d.pc, ov), p)
            && RankAt(t, par.nvc, r, k) < RankAt(t, par.nvc, d.router, VC(d.pc, ov))
  {
    Links(t, epc, linkLat, par, r, op);
    var c' := Channel(r, op, ov);
    assert Hop(t, par.nvc, eject(p), dest(p), c') && r != dest(p);
    HopRank(t, par.nvc, eject(p), dest(p), c');
    InRange(t, r);
    if Internal(k.pc) {
      var u := NextConn(t, r, k.pc);
      NextConnInvolution(t, r, k.pc);
      HopRises(t, par.nvc, eject(p), dest(p), Channel(u.router, u.pc, k.vc), c');
    } else {
      RingRankBounds(t, par.nvc, c');
    }
  }

  lemma RingRankBounds(t: Grid, nvc: nat, c: Channel)
    requires t.Valid() && t.Router(c.router) && Internal(c.pc)
    ensures 0 <= Rank(t, nvc, c) < 2 * t.cols + 2 * t.rows
  {
    InRange(t, c.router);
  }

  lemma RankBounded(t: Grid, nvc: nat, r: int, k: VC)
    requires t.Valid()
    ensures RankAt(t, nvc, r, k) <= 2 * t.cols + 2 * t.rows
  {
    if t.Router(r) && Internal(k.pc) {
      NextConnInvolution(t, r, k.pc);
      var u := NextConn(t, r, k.pc);
      RingRankBounds(t, nvc, Channel(u.router, u.pc, k.vc));
    }
  }

  lemma TorusRanked(t: Grid, epc: nat, linkLat: nat, par: Topo, dest: nat -> int, eject: nat -> int, single: bool)
    requires t.Valid() && par.nvc >= 2
    ensures var T := Network(t, epc, linkLat, par);
            var g := TorusRouting(t, epc, par.nvc, dest, eject, single);
            Closed(T, g) && Ranked(T, g, (r, k) => RankAt(t, par.nvc, r, k), 2 * t.cols + 2 * t.rows)
  {
    var T := Network(t, epc, linkLat, par);
    var g := TorusRouting(t, epc, par.nvc, dest, eject, single);
    var rank := (r, k) => RankAt(t, par.nvc, r, k);
    forall r, k, p, op, ov | T.ValidVC(r, k) && g.may(r, k, p) && g.out(r, k, p, op) && g.admits(r, k, p, op, ov) &&
      T.Down(Port(r, op)).Some?
      ensures var d := T.Down(Port(r, op)).value;
              g.may(d.router, VC(d.pc, ov), p) && rank(r, k) < rank(d.router, VC(d.pc, ov))
    {
      Links(t, epc, linkLat, par, r, op);
      HopGood(t, epc, linkLat, par, dest, eject, single, r, k, p, op, ov);
    }
    forall r, k | T.ValidVC(r, k) ensures rank(r, k) <= 2 * t.cols + 2 * t.rows { RankBounded(t, par.nvc, r, k); }
  }

  lemma TorusAdmitting(t: Grid, epc: nat, linkLat: nat, par: Topo, dest: nat -> int, eject: nat -> int, single: bool)
    requires t.Valid() && par.nvc >= 2
    ensures var T := Network(t, epc, linkLat, par);
            var g := TorusRouting(t, epc, par.nvc, dest, eject, single);
            Admitting(T, g) && Entered(T, g)
  {
    var T := Network(t, epc, linkLat, par);
    var g := TorusRouting(t, epc, par.nvc, dest, eject, single);
    forall r, k, p, op | T.ValidVC(r, k) && g.may(r, k, p) && g.out(r, k, p, op)
      ensures exists ov :: 0 <= ov < T.nvc && g.admits(r, k, p, op, ov) {
      SomeVC(t, par.nvc, eject(p), r, dest(p));
      var c: Channel :| c.router == r && Hop(t, par.nvc, eject(p), dest(p), c);
      assert g.admits(r, k, p, op, c.vc);
    }
    forall r, k, p | T.ValidVC(r, k) && g.may(r, k, p) && T.Up(Port(r, k.pc)).None? ensures T.IsEject(r, k.pc) {
      if Internal(k.pc) { Fed(t, epc, linkLat, par, r, k.pc); }
    }
  }

  // On every torus with at least two VCs, whatever the packets, their numbers and the arbiters' choices are:
  // while a flit is buffered, one can move.
  lemma TorusNeverStuck(t: Grid, epc: nat, linkLat: nat, par: Topo, dest: nat -> int, eject: nat -> int, single: bool)
    requires t.Valid() && linkLat >= 1 && par.nvc >= 2 && Covered(par) && Guarded(par, single)
    ensures AlwaysGoesOn(Network(t, epc, linkLat, par),
                         TorusRouting(t, epc, par.nvc, dest, eject, single))
  {
    TorusRanked(t, epc, linkLat, par, dest, eject, single);
    TorusAdmitting(t, epc, linkLat, par, dest, eject, single);
    NeverStuck(Network(t, epc, linkLat, par), TorusRouting(t, epc, par.nvc, dest, eject, single),
               (r, k) => RankAt(t, par.nvc, r, k), 2 * t.cols + 2 * t.rows);
  }

  // ---------- the paths of the packets in the network ----------

  // The channels of path have brought a packet from src to input VC k of router r.
  ghost predicate ComesBy(t: Grid, nvc: nat, eject: int, src: int, dest: int, r: int, k: VC, path: seq<Channel>)
    requires t.Valid()
  {
    && Torus.Legal(t, nvc, eject, Packet(0, src, dest, path, 0))
    && (if path == [] then r == src && !Internal(k.pc)
        else var c := path[|path| - 1]; NextConn(t, c.router, c.pc) == Port(r, k.pc) && c.vc == k.vc)
  }

  ghost predicate Came(t: Grid, nvc: nat, eject: int, src: int, dest: int, r: int, k: VC)
    requires t.Valid()
  {
    eject > DIR_SOUTH && exists path :: ComesBy(t, nvc, eject, src, dest, r, k, path)
  }

  ghost function PathRouting(t: Grid, nvc: nat, src: nat -> int, dest: nat -> int, eject: nat -> int): Routing
    requires t.Valid()
  {
    Routing(
      (r: int, k: VC, p: nat) => Came(t, nvc, eject(p), src(p), dest(p), r, k),
      (r: int, k: VC, p: nat, op: int) => op == SelectOutPC(t, r, dest(p), eject(p)),
      (r: int, k: VC, p: nat, op: int, ov: int) => 0 <= ov < nvc && Admits(t, ov, r, dest(p), nvc),
      false)
  }

  // One channel more.
  lemma PathGoesOn(t: Grid, nvc: nat, eject: int, src: int, dest: int, r: int, k: VC, op: int, ov: int)
    requires t.Valid() && Came(t, nvc, eject, src, dest, r, k) && t.Router(r) && Internal(op)
    requires op == SelectOutPC(t, r, dest, eject) && 0 <= ov < nvc && Admits(t, ov, r, dest, nvc)
    ensures var d := NextConn(t, r, op); Came(t, nvc, eject, src, dest, d.router, VC(d.pc, ov))
  {
    var path :| ComesBy(t, nvc, eject, src, dest, r, k, path);
    var c := Channel(r, op, ov);
    var path' := path + [c];
    var p, p' := Packet(0, src, dest, path, 0), Packet(0, src, dest, path', 0);
    assert r != dest;
    forall i ensures LegalAt(t, nvc, eject, p', i) {
      assert LegalAt(t, nvc, eject, p, i);
      if 0 <= i < |path| { assert path'[..i] == path[..i] && path'[i] == path[i]; }
      if i == |path| { assert path'[..i] == path; }
    }
    var d := NextConn(t, r, op);
    assert ComesBy(t, nvc, eject, src, dest, d.router, VC(d.pc, ov), path');
  }

  // So the packets of every state the torus comes to are such as the deadlock theorem speaks of: each flit in
  // a buffer has come there by a legal path.
  lemma FlitsOnLegalPaths(t: Grid, epc: nat, linkLat: nat, par: Topo, src: nat -> int, dest: nat -> int,
                          eject: nat -> int, s: Net, r: int, k: VC, i: nat)
    requires t.Valid() && linkLat >= 1
    requires LawfulReachable(Network(t, epc, linkLat, par), PathRouting(t, par.nvc, src, dest, eject), s)
    requires 0 <= r < |s.rs| && Network(t, epc, linkLat, par).ValidVC(r, k) && i < |Q(s.rs[r].c, k)|
    ensures var p := Q(s.rs[r].c, k)[i].pkt; exists path :: ComesBy(t, par.nvc, eject(p), src(p), dest(p), r, k, path)
  {
    var T := Network(t, epc, linkLat, par);
    var g := PathRouting(t, par.nvc, src, dest, eject);
    forall r, k, p, op, ov | T.ValidVC(r, k) && g.may(r, k, p) && g.out(r, k, p, op) && g.admits(r, k, p, op, ov) &&
      T.Down(Port(r, op)).Some?
      ensures var d := T.Down(Port(r, op)).value; g.may(d.router, VC(d.pc, ov), p) {
      Links(t, epc, linkLat, par, r, op);
      PathGoesOn(t, par.nvc, eject(p), src(p), dest(p), r, k, op, ov);
    }
    AlwaysLegal(T, g, s);
    assert RoutedPackets.Legal(T, g, r, s.rs[r]);
    assert Carried(g, r, k, Q(s.rs[r].c, k));
    var p := Q(s.rs[r].c, k)[i].pkt;
    assert g.may(r, k, p);
    assert Came(t, par.nvc, eject(p), src(p), dest(p), r, k);
  }
}
