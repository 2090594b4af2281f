// The mesh with its minimal-adaptive routing never comes to a standstill.

module MeshProgress {
  import opened Wiring
  import opened Coordinates
  import opened Protocol
  import opened Changes
  import opened RoutedPackets
  import opened Progress
  import opened Writers
  import opened Deadlock
  import opened Mesh

  function InOf(k: VC): Option<int> { if Internal(k.pc) then Some(k.vc) else None }

  // The rows of a packet between different rows are in the half of its network.
  predicate InHalf(t: Grid, nvc: nat, src: int, dest: int, pc: int, vc: int)
    requires t.Valid()
  {
    Horizontal(pc) && t.Y(src) != t.Y(dest) ==> (vc >= nvc / 2 <==> t.Y(dest) > t.Y(src))
  }

  // A packet from router src to router dest comes to an input VC by a hop towards dest, in the half of its
  // network, and never beyond the row of dest.
  predicate May(t: Grid, epc: nat, nvc: nat, src: int, dest: int, eject: int, r: int, k: VC)
    requires t.Valid()
  {
    && t.Router(r) && t.Router(src) && t.Router(dest) && 4 <= eject < 4 + epc && Side(t, src, dest, r) &&
       0 <= k.vc < nvc
    && (if Internal(k.pc) then
          var u := NextConn(t, r, k.pc);
          && t.Router(u.router) && Side(t, src, dest, u.router) && Towards(t, u.router, dest, u.pc)
          && InHalf(t, nvc, src, dest, u.pc, k.vc)
        else r == src)
  }

  ghost predicate MayOut(t: Grid, dest: int, eject: int, r: int, op: int)
    requires t.Valid()
  {
    Selectable(t, r, dest, eject, op)
  }

  predicate MayTake(t: Grid, nvc: nat, src: int, dest: int, r: int, k: VC, op: int, ov: int)
    requires t.Valid()
  {
    0 <= ov < nvc && (r == dest || Admits(t, ov, InOf(k), r, NextConn(t, r, op).router, src, dest, nvc))
  }

  // Packet p goes from router src(p) to router dest(p) and leaves there by port eject(p); the costs by which
  // selectOutPC chooses may be any.
  ghost function MeshRouting(t: Grid, epc: nat, nvc: nat, src: nat -> int, dest: nat -> int, eject: nat -> int,
                             single: bool): Routing
    requires t.Valid()
  {
    Routing(
      (r: int, k: VC, p: nat) => May(t, epc, nvc, src(p), dest(p), eject(p), r, k),
      (r: int, k: VC, p: nat, op: int) => MayOut(t, dest(p), eject(p), r, op),
      (r: int, k: VC, p: nat, op: int, ov: int) => MayTake(t, nvc, src(p), dest(p), r, k, op, ov),
      single)
  }

  // The rank of the channel that feeds an input VC.
  function RankAt(t: Grid, nvc: nat, r: int, k: VC): nat
    requires t.Valid()
  {
    if !Internal(k.pc) then 0
    else
      var u := NextConn(t, r, k.pc);
      var x := Rank(t, nvc, Channel(u.router, u.pc, k.vc));
      if !t.Router(u.router) || x < 0 then 0 else x + 1
  }

  function Top(t: Grid): int { t.rows * (t.cols + 1) + 1 }

  lemma Links(t: Grid, epc: nat, linkLat: nat, par: Topo, r: int, op: int)
    requires t.Valid() && Network(t, epc, linkLat, par).Down(Port(r, op)).Some?
    ensures var d := NextConn(t, r, op);
            && t.Router(r) && Internal(op) && Network(t, epc, linkLat, par).Down(Port(r, op)) == Some(d)
            && t.Router(d.router) && Internal(d.pc) && NextConn(t, d.router, d.pc) == Port(r, op)
  {
    assert Port(r, op) in Ports(t);
    NextConnInvolution(t, r, op);
  }

  lemma Fed(t: Grid, epc: nat, linkLat: nat, par: Topo, r: int, pc: int)
    requires t.Valid() && t.Router(r) && Internal(pc) && t.Router(NextConn(t, r, pc).router)
    ensures Network(t, epc, linkLat, par).Up(Port(r, pc)).Some?
  {
    assert Port(r, pc) in Ports(t);
  }

  // A hop leads where the routing function may bring the packet ...
  lemma HopMay(t: Grid, epc: nat, nvc: nat, src: int, dest: int, eject: int, r: int, k: VC, op: int, ov: int)
    requires t.Valid() && May(t, epc, nvc, src, dest, eject, r, k) && MayOut(t, dest, eject, r, op)
    requires MayTake(t, nvc, src, dest, r, k, op, ov) && Internal(op)
    requires var d := NextConn(t, r, op); Internal(d.pc) && NextConn(t, d.router, d.pc) == Port(r, op)
    ensures r != dest && Towards(t, r, dest, op) && InHalf(t, nvc, src, dest, op, ov)
    ensures var d := NextConn(t, r, op); May(t, epc, nvc, src, dest, eject, d.router, VC(d.pc, ov))
  {
    SelectableTowards(t, r, dest, eject, op);
    HopTowards(t, eject, src, dest, r, op);
    NextXY(t, r, dest, op);
  }

  // ... and to higher rank.
  lemma HopUp(t: Grid, epc: nat, nvc: nat, src: int, dest: int, eject: int, r: int, k: VC, op: int, ov: int)
    requires t.Valid() && May(t, epc, nvc, src, dest, eject, r, k) && MayTake(t, nvc, src, dest, r, k, op, ov)
    requires r != dest && Towards(t, r, dest, op) && Internal(op)
    requires var d := NextConn(t, r, op); Internal(d.pc) && NextConn(t, d.router, d.pc) == Port(r, op)
    ensures var d := NextConn(t, r, op); RankAt(t, nvc, r, k) < RankAt(t, nvc, d.router, VC(d.pc, ov))
  {
    var c' := Channel(r, op, ov);
    RankOf(t, nvc, c');
    if Internal(k.pc) {
      var u := NextConn(t, r, k.pc);
      NextConnInvolution(t, r, k.pc);
      RankOf(t, nvc, Channel(u.router, u.pc, k.vc));
      HopRises(t, nvc, eject, Packet(0, src, dest, [], op), Channel(u.router, u.pc, k.vc), c');
    }
  }

  lemma RankBounded(t: Grid, nvc: nat, r: int, k: VC)
    requires t.Valid()
    ensures RankAt(t, nvc, r, k) <= Top(t) && Top(t) >= 0
  {
    Monotone(0, t.rows, t.cols + 1);
    var u := NextConn(t, r, k.pc);
    if t.Router(u.router) { RankOf(t, nvc, Channel(u.router, u.pc, k.vc)); }
  }

  lemma MeshRanked(t: Grid, epc: nat, linkLat: nat, par: Topo, src: nat -> int, dest: nat -> int, eject: nat -> int,
                   single: bool)
    requires t.Valid()
    ensures var T := Network(t, epc, linkLat, par);
            var g := MeshRouting(t, epc, par.nvc, src, dest, eject, single);
            Top(t) >= 0 && Closed(T, g) && Ranked(T, g, (r, k) => RankAt(t, par.nvc, r, k), Top(t))
  {
    var T := Network(t, epc, linkLat, par);
    var g := MeshRouting(t, epc, par.nvc, src, dest, eject, single);
    var rank := (r, k) => RankAt(t, par.nvc, r, k);
    RankBounded(t, par.nvc, 0, VC(0, 0));
    forall r, k, p, op, ov | T.ValidVC(r, k) && g.may(r, k, p) && g.out(r, k, p, op) && g.admits(r, k, p, op, ov) &&
      T.Down(Port(r, op)).Some?
      ensures var d := T.Down(Port(r, op)).value;
              g.may(d.router, VC(d.pc, ov), p) && rank(r, k) < rank(d.router, VC(d.pc, ov))
    {
      Links(t, epc, linkLat, par, r, op);
      HopMay(t, epc, par.nvc, src(p), dest(p), eject(p), r, k, op, ov);
      HopUp(t, epc, par.nvc, src(p), dest(p), eject(p), r, k, op, ov);
    }
    forall r, k | T.ValidVC(r, k) ensures rank(r, k) <= Top(t) { RankBounded(t, par.nvc, r, k); }
  }

  lemma SomeTaken(t: Grid, epc: nat, nvc: nat, src: int, dest: int, eject: int, r: int, k: VC, op: int)
    returns (ov: int)
    requires t.Valid() && Enough(t, nvc) && May(t, epc, nvc, src, dest, eject, r, k) && MayOut(t, dest, eject, r, op)
    ensures MayTake(t, nvc, src, dest, r, k, op, ov)
  {
    ov := 0;
    if r != dest {
      SelectableTowards(t, r, dest, eject, op);
      Coords(t, r);
      Coords(t, dest);
      Coords(t, src);
      SomeVCIff(t, InOf(k), r, op, src, dest, nvc);
      ov :| 0 <= ov < nvc && Admits(t, ov, InOf(k), r, NextConn(t, r, op).router, src, dest, nvc);
    }
  }

  lemma MeshAdmitting(t: Grid, epc: nat, linkLat: nat, par: Topo, src: nat -> int, dest: nat -> int, eject: nat -> int,
                      single: bool)
    requires t.Valid() && Enough(t, par.nvc)
    ensures var T := Network(t, epc, linkLat, par);
            var g := MeshRouting(t, epc, par.nvc, src, dest, eject, single);
            Admitting(T, g) && Entered(T, g)
  {
    var T := Network(t, epc, linkLat, par);
    var g := MeshRouting(t, epc, par.nvc, src, dest, eject, single);
    forall r, k, p, op | T.ValidVC(r, k) && g.may(r, k, p) && g.out(r, k, p, op)
      ensures exists ov :: 0 <= ov < T.nvc && g.admits(r, k, p, op, ov) {
      var ov := SomeTaken(t, epc, par.nvc, src(p), dest(p), eject(p), r, k, op);
      assert g.admits(r, k, p, op, ov);
    }
    forall r, k, p | T.ValidVC(r, k) && g.may(r, k, p) && T.Up(Port(r, k.pc)).None? ensures T.IsEject(r, k.pc) {
      assert May(t, epc, par.nvc, src(p), dest(p), eject(p), r, k);
      if Internal(k.pc) { Fed(t, epc, linkLat, par, r, k.pc); }
    }
  }

  // On every mesh where a VC is always admitted, whatever the costs are: while a flit is buffered, one can move.
  lemma MeshNeverStuck(t: Grid, epc: nat, linkLat: nat, par: Topo, src: nat -> int, dest: nat -> int, eject: nat -> int,
                       single: bool)
    requires t.Valid() && linkLat >= 1 && Enough(t, par.nvc) && Covered(par) && Guarded(par, single)
    ensures AlwaysGoesOn(Network(t, epc, linkLat, par),
                         MeshRouting(t, epc, par.nvc, src, dest, eject, single))
  {
    MeshRanked(t, epc, linkLat, par, src, dest, eject, single);
    MeshAdmitting(t, epc, linkLat, par, src, dest, eject, single);
    NeverStuck(Network(t, epc, linkLat, par), MeshRouting(t, epc, par.nvc, src, dest, eject, single),
               (r, k) => RankAt(t, par.nvc, r, k), Top(t));
  }

  // ---------- the paths of the packets in the network ----------

  // The channels of path have brought a packet from src to input VC k of router r, where it may be given out.
  ghost predicate ComesBy(t: Grid, nvc: nat, eject: int, src: int, dest: int, r: int, k: VC, path: seq<Channel>,
                          out: int)
    requires t.Valid()
  {
    && Mesh.Legal(t, nvc, eject, Packet(0, src, dest, path, out)) && t.Router(r)
    && (if path == [] then r == src && !Internal(k.pc)
        else var c := path[|path| - 1]; NextConn(t, c.router, c.pc) == Port(r, k.pc) && Internal(k.pc) && c.vc == k.vc)
  }

  ghost predicate Came(t: Grid, nvc: nat, eject: int, src: int, dest: int, r: int, k: VC)
    requires t.Valid()
  {
    eject > DIR_SOUTH && exists path, out :: ComesBy(t, nvc, eject, src, dest, r, k, path, out)
  }

  ghost function PathRouting(t: Grid, nvc: nat, src: nat -> int, dest: nat -> int, eject: nat -> int): Routing
    requires t.Valid()
  {
    Routing(
      (r: int, k: VC, p: nat) => Came(t, nvc, eject(p), src(p), dest(p), r, k),
      (r: int, k: VC, p: nat, op: int) => MayOut(t, dest(p), eject(p), r, op),
      (r: int, k: VC, p: nat, op: int, ov: int) => MayTake(t, nvc, src(p), dest(p), r, k, op, ov),
      false)
  }

  // One channel more.
  lemma PathGoesOn(t: Grid, nvc: nat, eject: int, src: int, dest: int, r: int, k: VC, op: int, ov: int)
    requires t.Valid() && Came(t, nvc, eject, src, dest, r, k) && Internal(op) && MayOut(t, dest, eject, r, op)
    requires MayTake(t, nvc, src, dest, r, k, op, ov)
    requires var d := NextConn(t, r, op); t.Router(d.router) && Internal(d.pc)
    ensures var d := NextConn(t, r, op); Came(t, nvc, eject, src, dest, d.router, VC(d.pc, ov))
  {
    var path, out :| ComesBy(t, nvc, eject, src, dest, r, k, path, out);
    var d := NextConn(t, r, op);
    var path' := path + [Channel(r, op, ov)];
    var out' := SelectOutPC(t, d.router, dest, eject, _ => 0.0);
    var p, p' := Packet(0, src, dest, path, out), Packet(0, src, dest, path', out');
    SelectableTowards(t, r, dest, eject, op);
    forall i ensures LegalAt(t, nvc, eject, p', i) {
      assert LegalAt(t, nvc, eject, p, i);
      if 0 <= i < |path| { assert path'[..i] == path[..i] && path'[i] == path[i]; }
      if i == |path| { assert path'[..i] == path; }
    }
    assert Selectable(t, d.router, dest, eject, out');
    assert ComesBy(t, nvc, eject, src, dest, d.router, VC(d.pc, ov), path', out');
  }

  // So the packets of every state the mesh comes to are such as the deadlock theorem speaks of: each flit in a
  // buffer has come there by a legal path.
  lemma FlitsOnLegalPaths(t: Grid, epc: nat, linkLat: nat, par: Topo, src: nat -> int, dest: nat -> int,
                          eject: nat -> int, s: Net, r: int, k: VC, i: nat)
    requires t.Valid() && linkLat >= 1
    requires LawfulReachable(Network(t, epc, linkLat, par), PathRouting(t, par.nvc, src, dest, eject), s)
    requires 0 <= r < |s.rs| && Network(t, epc, linkLat, par).ValidVC(r, k) && i < |Q(s.rs[r].c, k)|
    ensures var p := Q(s.rs[r].c, k)[i].pkt;
            exists path, out :: ComesBy(t, par.nvc, eject(p), src(p), dest(p), r, k, path, out)
  {
    var T := Network(t, epc, linkLat, par);
    var g := PathRouting(t, par.nvc, src, dest, eject);
    forall r, k, p, op, ov | T.ValidVC(r, k) && g.may(r, k, p) && g.out(r, k, p, op) && g.admits(r, k, p, op, ov) &&
      T.Down(Port(r, op)).Some?
      ensures var d := T.Down(Port(r, op)).value; g.may(d.router, VC(d.pc, ov), p) {
      Links(t, epc, linkLat, par, r, op);
      PathGoesOn(t, par.nvc, eject(p), src(p), dest(p), r, k, op, ov);
    }
    AlwaysLegal(T, g, s);
    assert RoutedPackets.Legal(T, g, r, s.rs[r]);
    assert Carried(g, r, k, Q(s.rs[r].c, k));
    var p := Q(s.rs[r].c, k)[i].pkt;
    assert g.may(r, k, p);
    assert Came(t, par.nvc, eject(p), src(p), dest(p), r, k);
  }
}
