// The two-dimensional mesh and its minimal-adaptive routing over two virtual networks.

module Mesh {
  import opened Wiring
  import opened Coordinates
  import opened Deadlock
  import opened MapSize

  // Topology2DMesh::getNextConn, which is getPrevConn as well. It only checks that the id is in range.
  function NextConn(t: Grid, cur: int, outPc: int): Port {
    var next :=
      if outPc == DIR_WEST then Port(cur - 1, DIR_EAST)
      else if outPc == DIR_EAST then Port(cur + 1, DIR_WEST)
      else if outPc == DIR_NORTH then Port(cur - t.cols, DIR_SOUTH)
      else if outPc == DIR_SOUTH then Port(cur + t.cols, DIR_NORTH)
      else Port(INVALID_ROUTER, DIR_INVALID);
    if next.router < 0 || next.router >= t.cols * t.rows then Port(INVALID_ROUTER, DIR_INVALID) else next
  }

  // RoutingMeshMinAdaptive::selectOutPC, with the cost it computes for each output port of the router.
  function SelectOutPC(t: Grid, cur: int, dest: int, eject: int, cost: int -> real): int
    requires t.Valid()
  {
    var xOffset := t.X(dest) - t.X(cur);
    var yOffset := t.Y(dest) - t.Y(cur);
    var xDir := if xOffset > 0 then DIR_EAST else DIR_WEST;
    var yDir := if yOffset > 0 then DIR_SOUTH else DIR_NORTH;
    if xOffset == 0 then (if yOffset == 0 then eject else yDir)
    else if yOffset == 0 then xDir
    else if cost(xDir) < cost(yDir) then xDir
    else yDir
  }

  // RoutingMeshMinAdaptive::isOutVCDeadlockFree on an internal port; inVc is None on an injection port.
  predicate Admits(t: Grid, outVc: int, inVc: Option<int>, cur: int, next: int, src: int, dest: int, nvc: int)
    requires t.Valid()
  {
    if t.Y(dest) == t.Y(src) then inVc.None? || (inVc.value < nvc / 2 <==> outVc < nvc / 2)
    else t.X(cur) == t.X(next) || (if t.Y(dest) > t.Y(src) then outVc >= nvc / 2 else outVc < nvc / 2)
  }

  // Topology2DMesh::getMinHopCount, counting the source.
  function MinHopCount(t: Grid, src: int, dst: int): int
    requires t.Valid()
  {
    Distance(t.X(src), t.Y(src), t.X(dst), t.Y(dst)) + 1
  }

  // RoutingMeshMinAdaptive::computeCostVC: the output VCs of the port that are in use.
  method ComputeCostVC(busy: set<VC>, outPc: int, nvc: nat) returns (cost: nat)
    ensures cost == |set v | v in Below(nvc) && VC(outPc, v) in busy|
  {
    cost := 0;
    assert (set v | v in Below(0) && VC(outPc, v) in busy) == {};
    for outVc := 0 to nvc
      invariant cost == |set v | v in Below(outVc) && VC(outPc, v) in busy|
    {
      BelowSize(outVc);
      ghost var used := set v | v in Below(outVc) && VC(outPc, v) in busy;
      ghost var next := set v | v in Below(outVc + 1) && VC(outPc, v) in busy;
      if VC(outPc, outVc) in busy {
        assert next == used + {outVc};
        cost := cost + 1;
      } else {
        assert next == used;
      }
    }
  }

  function Distance(x: int, y: int, x': int, y': int): nat { Abs(x - x') + Abs(y - y') }

  // ---------- coordinates ----------

  // Upstream and downstream tables name each other.
  lemma NextConnInvolution(t: Grid, cur: int, pc: int)
    requires t.Valid() && t.Router(cur) && Internal(pc) && NextConn(t, cur, pc).router != INVALID_ROUTER
    ensures var n := NextConn(t, cur, pc);
            t.Router(n.router) && Internal(n.pc) && NextConn(t, n.router, n.pc) == Port(cur, pc)
  {}

  // Where the topology marks a link as valid.
  predicate LinkValid(t: Grid, cur: int, pc: int)
    requires t.Valid()
  {
    if pc == DIR_WEST then t.X(cur) > 0 else if pc == DIR_EAST then t.X(cur) < t.cols - 1
    else if pc == DIR_NORTH then t.Y(cur) > 0 else pc == DIR_SOUTH && t.Y(cur) < t.rows - 1
  }

  // Router n lies beside cur in the direction of port pc.
  predicate Beside(t: Grid, cur: int, pc: int, n: int)
    requires t.Valid()
  {
    && t.X(n) == t.X(cur) + (if pc == DIR_EAST then 1 else if pc == DIR_WEST then -1 else 0)
    && t.Y(n) == t.Y(cur) + (if pc == DIR_SOUTH then 1 else if pc == DIR_NORTH then -1 else 0)
  }

  // Every valid link is connected, to the router beside it. Every other connected port leads round the
  // border of the mesh, to the first router of the next row or the last of the one before.
  lemma ConnectedIff(t: Grid, cur: int, pc: int)
    requires t.Valid() && t.Router(cur) && Internal(pc)
    ensures var n := NextConn(t, cur, pc).router;
            && (LinkValid(t, cur, pc) ==> t.Router(n))
            && (t.Router(n) ==> (Beside(t, cur, pc, n) <==> LinkValid(t, cur, pc)))
            && (t.Router(n) && !LinkValid(t, cur, pc) <==>
                  || (pc == DIR_EAST && t.X(cur) == t.cols - 1 && t.Y(cur) < t.rows - 1)
                  || (pc == DIR_WEST && t.X(cur) == 0 && t.Y(cur) > 0))
            && (t.Router(n) && !LinkValid(t, cur, pc) ==>
                t.X(n) == t.cols - 1 - t.X(cur) && Abs(t.Y(n) - t.Y(cur)) == 1)
  {
    Coords(t, cur);
    var x, y := t.X(cur), t.Y(cur);
    Rows(y, t.cols);
    Rows(t.rows, t.cols);
    if LinkValid(t, cur, pc) {
      var x' := x + (if pc == DIR_EAST then 1 else if pc == DIR_WEST then -1 else 0);
      var y' := y + (if pc == DIR_SOUTH then 1 else if pc == DIR_NORTH then -1 else 0);
      IdOf(x', y', t.cols, t.rows);
    } else if pc == DIR_EAST {
      LastRow(t, y);
      if y < t.rows - 1 { IdOf(0, y + 1, t.cols, t.rows); }
    } else if pc == DIR_WEST {
      if y > 0 { IdOf(t.cols - 1, y - 1, t.cols, t.rows); }
    } else {
      LastRow(t, y);
    }
  }

  lemma LastRow(t: Grid, y: int)
    ensures y == t.rows - 1 ==> (y + 1) * t.cols == t.cols * t.rows
    ensures y == 0 ==> y * t.cols == 0
  {}

  // In a 2x2 mesh the east port of router 1 is not a valid link and leads to router 2 in the next row.
  lemma RoundTheBorder()
    ensures !LinkValid(Grid(2, 2), 1, DIR_EAST) && NextConn(Grid(2, 2), 1, DIR_EAST) == Port(2, DIR_WEST)
  {
    assert Grid(2, 2).X(1) == 1;
  }

  predicate Horizontal(pc: int) { pc == DIR_WEST || pc == DIR_EAST }

  // The direction pc leads towards dest.
  predicate Towards(t: Grid, cur: int, dest: int, pc: int)
    requires t.Valid()
  {
    var x, y, xd, yd := t.X(cur), t.Y(cur), t.X(dest), t.Y(dest);
    if pc == DIR_EAST then x < xd else if pc == DIR_WEST then x > xd
    else if pc == DIR_SOUTH then y < yd else pc == DIR_NORTH && y > yd
  }

  // For every cost function the port selected leads towards the destination.
  lemma SelectedTowards(t: Grid, cur: int, dest: int, eject: int, cost: int -> real)
    requires t.Valid() && t.Router(cur) && t.Router(dest) && cur != dest
    ensures Towards(t, cur, dest, SelectOutPC(t, cur, dest, eject, cost))
  {
    SameCoords(t, cur, dest);
  }

  // It is the cheapest port that does, and of two equally cheap ones that in the column.
  lemma SelectedIff(t: Grid, cur: int, dest: int, eject: int, cost: int -> real, pc: int)
    requires t.Valid() && t.Router(cur) && t.Router(dest)
    ensures pc == SelectOutPC(t, cur, dest, eject, cost) <==>
              if cur == dest then pc == eject
              else
                && Towards(t, cur, dest, pc)
                && forall q :: Towards(t, cur, dest, q) ==>
                     cost(pc) <= cost(q) && (q != pc && cost(q) == cost(pc) ==> Horizontal(q))
  {
    SameCoords(t, cur, dest);
  }

  // Such a port has a valid link, to its neighbour in the same row or column.
  lemma NextXY(t: Grid, cur: int, dest: int, pc: int)
    requires t.Valid() && t.Router(cur) && t.Router(dest) && Towards(t, cur, dest, pc)
    ensures Internal(pc)
    ensures var n := NextConn(t, cur, pc);
            LinkValid(t, cur, pc) && t.Router(n.router) && Internal(n.pc) && Beside(t, cur, pc, n.router)
  {
    Coords(t, cur);
    Coords(t, dest);
    ConnectedIff(t, cur, pc);
  }

  // ---------- the network ----------

  function Ports(t: Grid): set<Port> {
    set r, pc | 0 <= r < t.cols * t.rows && DIR_WEST <= pc <= DIR_SOUTH &&
      NextConn(t, r, pc).router != INVALID_ROUTER :: Port(r, pc)
  }

  function Network(t: Grid, epc: nat, linkLat: nat, par: Topo): Topo {
    par.(npc := seq(t.cols * t.rows, _ => 4 + epc), nint := seq(t.cols * t.rows, _ => 4),
         next := map p | p in Ports(t) :: NextConn(t, p.router, p.pc),
         prev := map p | p in Ports(t) :: NextConn(t, p.router, p.pc),
         lat := map p | p in Ports(t) :: linkLat)
  }

  // It is a network in which the protocol is sound ...
  lemma MeshNetworkValid(t: Grid, epc: nat, linkLat: nat, par: Topo)
    requires t.Valid() && linkLat >= 1 && par.rsv <= par.depth
    ensures Network(t, epc, linkLat, par).Valid()
  {
    var T := Network(t, epc, linkLat, par);
    forall p | p in Ports(t)
      ensures T.InternalPort(p) && T.InternalPort(NextConn(t, p.router, p.pc))
      ensures NextConn(t, p.router, p.pc) in Ports(t) && T.next[NextConn(t, p.router, p.pc)] == p {
      NextConnInvolution(t, p.router, p.pc);
    }
  }

  lemma Wired(t: Grid, epc: nat, linkLat: nat, par: Topo, cur: int, pc: int)
    requires t.Valid() && t.Router(cur) && Internal(pc) && t.Router(NextConn(t, cur, pc).router)
    ensures Network(t, epc, linkLat, par).Down(Port(cur, pc)).Some?
  {
    assert Port(cur, pc) in Ports(t);
  }

  // ... and the routing function only gives ports it has.
  lemma MeshRoutable(t: Grid, epc: nat, linkLat: nat, par: Topo, cur: int, dest: int, eject: int, cost: int -> real)
    requires t.Valid() && t.Router(cur) && t.Router(dest) && 4 <= eject < 4 + epc
    ensures Network(t, epc, linkLat, par).Routable(cur, SelectOutPC(t, cur, dest, eject, cost))
  {
    var pc := SelectOutPC(t, cur, dest, eject, cost);
    if cur != dest {
      SelectedTowards(t, cur, dest, eject, cost);
      NextXY(t, cur, dest, pc);
      Wired(t, epc, linkLat, par, cur, pc);
    } else {
      assert pc == eject;
    }
  }

  // A router has the ports of its links and epc ports that eject.
  lemma PortsAre(t: Grid, epc: nat, linkLat: nat, par: Topo, cur: int, pc: int)
    requires t.Valid() && t.Router(cur)
    ensures var T := Network(t, epc, linkLat, par);
            && (T.Down(Port(cur, pc)).Some? <==> Internal(pc) && t.Router(NextConn(t, cur, pc).router))
            && (0 <= pc < T.npc[cur] && T.IsEject(cur, pc) <==> 4 <= pc < 4 + epc)
  {}

  // Every link takes the configured latency in both directions.
  lemma LinkLatency(t: Grid, epc: nat, linkLat: nat, par: Topo, cur: int, pc: int)
    requires t.Valid() && t.Router(cur) && Internal(pc) && t.Router(NextConn(t, cur, pc).router)
    ensures var T := Network(t, epc, linkLat, par);
            var n := NextConn(t, cur, pc);
            T.Down(Port(cur, pc)) == Some(n) && T.Lat(Port(cur, pc)) == T.Lat(n) == linkLat
  {
    NextConnInvolution(t, cur, pc);
    assert Port(cur, pc) in Ports(t) && NextConn(t, cur, pc) in Ports(t);
  }

  // ---------- path length ----------

  // The routers a packet visits when the costs are cost[0], cost[1], ... at its hops.
  function Route(t: Grid, cur: int, dest: int, eject: int, cost: nat -> int -> real, hop: nat): seq<int>
    requires t.Valid() && t.Router(cur) && t.Router(dest)
    decreases Distance(t.X(cur), t.Y(cur), t.X(dest), t.Y(dest))
  {
    if cur == dest then [cur]
    else
      var pc := SelectOutPC(t, cur, dest, eject, cost(hop));
      SelectedTowards(t, cur, dest, eject, cost(hop));
      NextXY(t, cur, dest, pc);
      [cur] + Route(t, NextConn(t, cur, pc).router, dest, eject, cost, hop + 1)
  }

  // Whatever the costs are, every packet arrives in exactly getMinHopCount - 1 hops.
  lemma {:induction false} RouteIsMinimal(t: Grid, cur: int, dest: int, eject: int, cost: nat -> int -> real, hop: nat)
    requires t.Valid() && t.Router(cur) && t.Router(dest)
    ensures var r := Route(t, cur, dest, eject, cost, hop);
            |r| == MinHopCount(t, cur, dest) && r[0] == cur && r[|r| - 1] == dest
    decreases Distance(t.X(cur), t.Y(cur), t.X(dest), t.Y(dest))
  {
    if cur != dest {
      var pc := SelectOutPC(t, cur, dest, eject, cost(hop));
      SelectedTowards(t, cur, dest, eject, cost(hop));
      NextXY(t, cur, dest, pc);
      RouteIsMinimal(t, NextConn(t, cur, pc).router, dest, eject, cost, hop + 1);
    }
  }

  // ---------- admitted virtual channels ----------

  // A virtual channel is admitted for every hop exactly when there are at least two of them: with one, a
  // packet to the north that moves along a row is never admitted to any.
  lemma SomeVCIff(t: Grid, inVc: Option<int>, cur: int, pc: int, src: int, dest: int, nvc: int)
    requires t.Valid() && t.Router(cur) && t.Router(dest) && Towards(t, cur, dest, pc) && nvc >= 1
    requires inVc.Some? ==> 0 <= inVc.value < nvc
    ensures (exists v :: 0 <= v < nvc && Admits(t, v, inVc, cur, NextConn(t, cur, pc).router, src, dest, nvc)) <==>
              nvc >= 2 || !(t.Y(dest) < t.Y(src) && Horizontal(pc))
  {
    var n := NextConn(t, cur, pc).router;
    NextXY(t, cur, dest, pc);
    assert Horizontal(pc) <==> t.X(cur) != t.X(n);
    if t.Y(dest) == t.Y(src) {
      assert Admits(t, if inVc.None? then 0 else inVc.value, inVc, cur, n, src, dest, nvc);
    } else if t.Y(dest) > t.Y(src) {
      assert Admits(t, nvc / 2, inVc, cur, n, src, dest, nvc);
    } else if !Horizontal(pc) || nvc >= 2 {
      assert Admits(t, 0, inVc, cur, n, src, dest, nvc);
    }
  }

  // One virtual channel is not enough: router 3 of a 2x2 mesh to its diagonal neighbour in the north.
  lemma OneVCIsNotEnough()
    ensures var t := Grid(2, 2);
            var pc := SelectOutPC(t, 3, 0, 4, pc => pc as real);
            !Admits(t, 0, None, 3, NextConn(t, 3, pc).router, 3, 0, 1)
  {
    var t := Grid(2, 2);
    assert t.X(3) == 1 && t.Y(3) == 1 && t.X(0) == 0 && t.Y(0) == 0;
    assert SelectOutPC(t, 3, 0, 4, pc => pc as real) == DIR_WEST;
    assert NextConn(t, 3, DIR_WEST) == Port(2, DIR_EAST) && t.X(2) == 0;
  }

  // ---------- deadlock ----------

  // The southbound network: south channels, and high channels along the rows; the others are northbound.
  predicate Southbound(c: Channel, nvc: int) { c.pc == DIR_SOUTH || (Horizontal(c.pc) && c.vc >= nvc / 2) }

  // A packet never overshoots the row of its destination.
  predicate Side(t: Grid, src: int, dest: int, cur: int)
    requires t.Valid()
  {
    if t.Y(src) < t.Y(dest) then t.Y(cur) <= t.Y(dest)
    else if t.Y(src) > t.Y(dest) then t.Y(cur) >= t.Y(dest)
    else t.Y(cur) == t.Y(dest)
  }

  // Two virtual networks: a packet to the south is admitted to exactly the channels of the southbound one, a packet to
  // the north to exactly the others, and a packet along a row stays in the network that it was injected into.
  lemma AdmitsIff(t: Grid, outVc: int, inVc: Option<int>, cur: int, pc: int, src: int, dest: int, nvc: int)
    requires t.Valid() && t.Router(cur) && t.Router(dest) && Towards(t, cur, dest, pc) && Side(t, src, dest, cur)
    ensures Admits(t, outVc, inVc, cur, NextConn(t, cur, pc).router, src, dest, nvc) <==>
              if t.Y(dest) > t.Y(src) then Southbound(Channel(cur, pc, outVc), nvc)
              else if t.Y(dest) < t.Y(src) then !Southbound(Channel(cur, pc, outVc), nvc)
              else inVc.Some? ==>
                (Southbound(Channel(cur, pc, outVc), nvc) <==> Southbound(Channel(cur, pc, inVc.value), nvc))
  {
    NextXY(t, cur, dest, pc);
  }

  // So on a hop along a row half of the channels are admitted, unless the packet is injected and stays in its row, and
  // all of them on any other.
  lemma AdmitsHalf(t: Grid, inVc: Option<int>, cur: int, pc: int, src: int, dest: int, nvc: nat)
    requires t.Valid() && t.Router(cur) && t.Router(dest) && Towards(t, cur, dest, pc) && Side(t, src, dest, cur)
    ensures var n := NextConn(t, cur, pc).router;
            |set v | 0 <= v < nvc && Admits(t, v, inVc, cur, n, src, dest, nvc)| ==
              if !Horizontal(pc) || (t.Y(dest) == t.Y(src) && inVc.None?) then nvc
              else if t.Y(dest) > t.Y(src) || (t.Y(dest) == t.Y(src) && Southbound(Channel(cur, pc, inVc.value), nvc))
              then nvc - nvc / 2 else nvc / 2
  {
    var n := NextConn(t, cur, pc).router;
    var all := !Horizontal(pc) || (t.Y(dest) == t.Y(src) && inVc.None?);
    var south := t.Y(dest) > t.Y(src) ||
      (t.Y(dest) == t.Y(src) && inVc.Some? && Southbound(Channel(cur, pc, inVc.value), nvc));
    var low, high := if all || !south then 0 else nvc / 2, if all || south then nvc else nvc / 2;
    forall v ensures 0 <= v < nvc && Admits(t, v, inVc, cur, n, src, dest, nvc) <==> low <= v < high {
      AdmitsIff(t, v, inVc, cur, pc, src, dest, nvc);
    }
    BetweenSize(low, high);
    assert (set v | 0 <= v < nvc && Admits(t, v, inVc, cur, n, src, dest, nvc)) == Below(high) - Below(low);
  }

  // Row by row in the direction of the network, and in each row its channels before the way out of it.
  function Rank(t: Grid, nvc: int, c: Channel): int
    requires t.Valid()
  {
    var row := if Southbound(c, nvc) then t.Y(c.router) else t.rows - 1 - t.Y(c.router);
    if !Internal(c.pc) then t.rows * (t.cols + 1)
    else row * (t.cols + 1) +
         (if c.pc == DIR_EAST then t.X(c.router) else if c.pc == DIR_WEST then t.cols - 1 - t.X(c.router) else t.cols)
  }

  ghost predicate Selectable(t: Grid, cur: int, dest: int, eject: int, pc: int)
    requires t.Valid()
  {
    exists cost :: pc == SelectOutPC(t, cur, dest, eject, cost)
  }

  function Here(t: Grid, p: Packet): int {
    if p.path == [] then p.src else NextConn(t, Last(p).router, Last(p).pc).router
  }

  function InVc(p: Packet): Option<int> { if p.path == [] then None else Some(Last(p).vc) }

  // A channel the routing function admits on the port it chose for the packet.
  predicate Wants(t: Grid, nvc: int, p: Packet, c: Channel)
    requires t.Valid()
  {
    && c.router == Here(t, p) && c.pc == p.out && 0 <= c.vc < nvc
    && (c.router != p.dest ==>
        Admits(t, c.vc, InVc(p), c.router, NextConn(t, c.router, c.pc).router, p.src, p.dest, nvc))
  }

  // The packet before it took its i-th channel.
  function Before(p: Packet, i: nat): Packet
    requires i < |p.path|
  {
    p.(path := p.path[..i], out := p.path[i].pc)
  }

  ghost predicate LegalAt(t: Grid, nvc: int, eject: int, p: Packet, i: int)
    requires t.Valid()
  {
    0 <= i < |p.path| ==>
      && Wants(t, nvc, Before(p, i), p.path[i]) && p.path[i].router != p.dest
      && Selectable(t, p.path[i].router, p.dest, eject, p.path[i].pc)
  }

  // A packet that selectOutPC and isOutVCDeadlockFree have brought to where it is, under any costs.
  ghost predicate Legal(t: Grid, nvc: int, eject: int, p: Packet)
    requires t.Valid()
  {
    && t.Router(p.src) && t.Router(p.dest)
    && (forall i {:trigger LegalAt(t, nvc, eject, p, i)} :: LegalAt(t, nvc, eject, p, i))
    && Selectable(t, Here(t, p), p.dest, eject, p.out)
  }

  lemma SelectableTowards(t: Grid, cur: int, dest: int, eject: int, pc: int)
    requires t.Valid() && t.Router(cur) && t.Router(dest) && Selectable(t, cur, dest, eject, pc)
    ensures if cur == dest then pc == eject else Towards(t, cur, dest, pc)
  {
    var cost :| pc == SelectOutPC(t, cur, dest, eject, cost);
    if cur != dest { SelectedTowards(t, cur, dest, eject, cost); }
  }

  // One hop towards the destination.
  lemma HopTowards(t: Grid, eject: int, src: int, dest: int, cur: int, pc: int)
    requires t.Valid() && t.Router(cur) && t.Router(dest) && cur != dest && Selectable(t, cur, dest, eject, pc)
    requires Side(t, src, dest, cur)
    ensures Towards(t, cur, dest, pc) && Internal(pc)
    ensures t.Router(NextConn(t, cur, pc).router) && Side(t, src, dest, NextConn(t, cur, pc).router)
  {
    SelectableTowards(t, cur, dest, eject, pc);
    NextXY(t, cur, dest, pc);
  }

  lemma {:induction false} PathAt(t: Grid, nvc: int, eject: int, p: Packet, i: nat)
    requires t.Valid() && Legal(t, nvc, eject, p) && i < |p.path|
    ensures var c := p.path[i];
            && t.Router(c.router) && Side(t, p.src, p.dest, c.router) && Towards(t, c.router, p.dest, c.pc)
            && t.Router(NextConn(t, c.router, c.pc).router) &&
               Side(t, p.src, p.dest, NextConn(t, c.router, c.pc).router)
            && Wants(t, nvc, Before(p, i), c) && c.router != p.dest
    ensures i > 0 ==> InVc(Before(p, i)) == Some(p.path[i - 1].vc)
    ensures i > 0 ==> p.path[i].router == NextConn(t, p.path[i - 1].router, p.path[i - 1].pc).router
  {
    assert LegalAt(t, nvc, eject, p, i);
    if i > 0 {
      PathAt(t, nvc, eject, p, i - 1);
      assert p.path[..i][i - 1] == p.path[i - 1];
    }
    HopTowards(t, eject, p.src, p.dest, p.path[i].router, p.path[i].pc);
  }

  // Where the packet is now.
  lemma HereIs(t: Grid, nvc: int, eject: int, p: Packet)
    requires t.Valid() && eject > DIR_SOUTH && Legal(t, nvc, eject, p)
    ensures t.Router(Here(t, p)) && Side(t, p.src, p.dest, Here(t, p))
    ensures if Here(t, p) == p.dest then p.out == eject else Towards(t, Here(t, p), p.dest, p.out)
    ensures InVc(p).Some? ==> 0 <= InVc(p).value < nvc
  {
    if p.path != [] { PathAt(t, nvc, eject, p, |p.path| - 1); }
    SelectableTowards(t, Here(t, p), p.dest, eject, p.out);
  }

  // The rank of a channel a packet takes, by its direction.
  lemma RankOf(t: Grid, nvc: int, c: Channel)
    requires t.Valid() && t.Router(c.router)
    ensures 0 <= Rank(t, nvc, c) <= t.rows * (t.cols + 1) &&
            (Internal(c.pc) ==> Rank(t, nvc, c) < t.rows * (t.cols + 1))
  {
    Coords(t, c.router);
    var w := t.cols + 1;
    var row := if Southbound(c, nvc) then t.Y(c.router) else t.rows - 1 - t.Y(c.router);
    Monotone(0, row, w);
    Monotone(row, t.rows - 1, w);
    Rows(t.rows, w);
    Monotone(0, t.rows, w);
  }

  // Every hop leads to channels of higher rank.
  lemma HopRises(t: Grid, nvc: int, eject: int, p: Packet, c: Channel, c': Channel)
    requires t.Valid() && eject > DIR_SOUTH && t.Router(c.router) && t.Router(p.dest)
    requires Side(t, p.src, p.dest, c.router) && Towards(t, c.router, p.dest, c.pc)
    requires c'.router == NextConn(t, c.router, c.pc).router && Side(t, p.src, p.dest, c'.router)
    requires if c'.router == p.dest then c'.pc == eject else Towards(t, c'.router, p.dest, c'.pc)
    requires Horizontal(c.pc) && t.Y(p.src) != t.Y(p.dest) ==> (c.vc >= nvc / 2 <==> t.Y(p.dest) > t.Y(p.src))
    requires c'.router != p.dest ==>
               Admits(t, c'.vc, Some(c.vc), c'.router, NextConn(t, c'.router, c'.pc).router, p.src, p.dest, nvc)
    ensures Rank(t, nvc, c) < Rank(t, nvc, c')
  {
    NextXY(t, c.router, p.dest, c.pc);
    RankOf(t, nvc, c);
    if c'.router != p.dest {
      NextXY(t, c'.router, p.dest, c'.pc);
      Coords(t, c.router);
      Coords(t, c'.router);
      var row := if Southbound(c, nvc) then t.Y(c.router) else t.rows - 1 - t.Y(c.router);
      Rows(row, t.cols + 1);
    }
  }

  // The rows of a packet between different rows are in the half of its network.
  lemma OwnHalf(t: Grid, nvc: int, eject: int, p: Packet, i: nat)
    requires t.Valid() && Legal(t, nvc, eject, p) && i < |p.path|
    ensures Horizontal(p.path[i].pc) && t.Y(p.src) != t.Y(p.dest) ==>
            (p.path[i].vc >= nvc / 2 <==> t.Y(p.dest) > t.Y(p.src))
  {
    var c := p.path[i];
    PathAt(t, nvc, eject, p, i);
    NextXY(t, c.router, p.dest, c.pc);
  }

  lemma PathRises(t: Grid, nvc: int, eject: int, p: Packet, i: nat)
    requires t.Valid() && eject > DIR_SOUTH && Legal(t, nvc, eject, p) && i < |p.path| - 1
    ensures Rank(t, nvc, p.path[i]) < Rank(t, nvc, p.path[i + 1])
  {
    PathAt(t, nvc, eject, p, i);
    PathAt(t, nvc, eject, p, i + 1);
    OwnHalf(t, nvc, eject, p, i);
    HopRises(t, nvc, eject, p, p.path[i], p.path[i + 1]);
  }

  lemma PathOrdered(t: Grid, nvc: int, eject: int, p: Packet)
    requires t.Valid() && eject > DIR_SOUTH && Legal(t, nvc, eject, p)
    ensures Ordered(p.path, c => Rank(t, nvc, c))
    ensures forall c :: c in p.path ==> Rank(t, nvc, c) >= 0
  {
    var rank := c => Rank(t, nvc, c);
    forall i ensures RisesAt(p.path, rank, i) {
      if 0 <= i < |p.path| - 1 { PathRises(t, nvc, eject, p, i); }
    }
    OrderedFrom(p.path, rank);
    forall c | c in p.path ensures Rank(t, nvc, c) >= 0 {
      var i :| 0 <= i < |p.path| && p.path[i] == c;
      PathAt(t, nvc, eject, p, i);
      RankOf(t, nvc, c);
    }
  }

  lemma WantsRise(t: Grid, nvc: int, eject: int, p: Packet, c: Channel)
    requires t.Valid() && eject > DIR_SOUTH && Legal(t, nvc, eject, p) && Wants(t, nvc, p, c) && p.path != []
    ensures Rank(t, nvc, Last(p)) < Rank(t, nvc, c)
  {
    PathAt(t, nvc, eject, p, |p.path| - 1);
    OwnHalf(t, nvc, eject, p, |p.path| - 1);
    HereIs(t, nvc, eject, p);
    HopRises(t, nvc, eject, p, Last(p), c);
  }

  // Some virtual channel is always admitted, except one-channel networks of two dimensions.
  predicate Enough(t: Grid, nvc: int) { nvc >= 1 && (nvc >= 2 || t.cols == 1 || t.rows == 1) }

  lemma SomeWanted(t: Grid, nvc: int, eject: int, p: Packet) returns (c: Channel)
    requires t.Valid() && eject > DIR_SOUTH && Legal(t, nvc, eject, p) && Enough(t, nvc)
    ensures Wants(t, nvc, p, c)
  {
    var cur := Here(t, p);
    HereIs(t, nvc, eject, p);
    if cur == p.dest {
      c := Channel(cur, p.out, 0);
    } else {
      Coords(t, cur);
      Coords(t, p.dest);
      Coords(t, p.src);
      SomeVCIff(t, InVc(p), cur, p.out, p.src, p.dest, nvc);
      var v :| 0 <= v < nvc && Admits(t, v, InVc(p), cur, NextConn(t, cur, p.out).router, p.src, p.dest, nvc);
      c := Channel(cur, p.out, v);
    }
  }

  lemma LegalRises(t: Grid, nvc: int, eject: int, p: Packet)
    requires t.Valid() && eject > DIR_SOUTH && Legal(t, nvc, eject, p) && Enough(t, nvc)
    ensures Rises(p, c => Rank(t, nvc, c), (p, c) => Wants(t, nvc, p, c))
  {
    var wants := (p, c) => Wants(t, nvc, p, c);
    PathOrdered(t, nvc, eject, p);
    assert exists c :: wants(p, c) by {
      var c := SomeWanted(t, nvc, eject, p);
      assert wants(p, c);
    }
    if p.path != [] {
      forall c | wants(p, c) ensures Rank(t, nvc, Last(p)) < Rank(t, nvc, c) { WantsRise(t, nvc, eject, p, c); }
    }
  }

  ghost predicate AllLegal(t: Grid, nvc: int, eject: int, S: set<Packet>)
    requires t.Valid()
  {
    forall p {:trigger p in S} :: p in S ==> Legal(t, nvc, eject, p)
  }

  // No set of packets is ever deadlocked, whatever the costs were: with two virtual channels ...
  lemma MeshDeadlockFree(t: Grid, nvc: int, eject: int, S: set<Packet>)
    requires t.Valid() && eject > DIR_SOUTH && Enough(t, nvc) && AllLegal(t, nvc, eject, S)
    ensures !Deadlocked(S, (p, c) => Wants(t, nvc, p, c))
  {
    forall p | p in S ensures Rises(p, c => Rank(t, nvc, c), (p, c) => Wants(t, nvc, p, c)) {
      LegalRises(t, nvc, eject, p);
    }
    NoDeadlock(S, c => Rank(t, nvc, c), (p, c) => Wants(t, nvc, p, c));
  }

  // ... and with one only where a packet never has to turn.
  lemma MeshDeadlockFreeIff(t: Grid, nvc: int, eject: int)
    requires t.Valid() && eject > DIR_SOUTH && nvc >= 1
    ensures (forall S: set<Packet> :: AllLegal(t, nvc, eject, S) ==> !Deadlocked(S, (p, c) => Wants(t, nvc, p, c)))
            <==> nvc >= 2 || t.cols == 1 || t.rows == 1
  {
    if Enough(t, nvc) {
      forall S: set<Packet> | AllLegal(t, nvc, eject, S)
        ensures !Deadlocked(S, (p, c) => Wants(t, nvc, p, c)) {
        MeshDeadlockFree(t, nvc, eject, S);
      }
    } else {
      var p := StuckPacket(t, eject);
      var S := {p};
      assert AllLegal(t, nvc, eject, S);
      assert Deadlocked(S, (p, c) => Wants(t, nvc, p, c)) by {
        assert Blocked(p, S, (p, c) => Wants(t, nvc, p, c));
      }
    }
  }

  // On one virtual channel a packet from router (1, 1) to router (0, 0) that turns west first is stuck.
  lemma StuckPacket(t: Grid, eject: int) returns (p: Packet)
    requires t.Valid() && eject > DIR_SOUTH && t.cols >= 2 && t.rows >= 2
    ensures Legal(t, 1, eject, p) && forall c :: !Wants(t, 1, p, c)
  {
    var src := 1 * t.cols + 1;
    IdOf(1, 1, t.cols, t.rows);
    IdOf(0, 0, t.cols, t.rows);
    IdOf(0, 1, t.cols, t.rows);
    p := Packet(0, src, 0, [], DIR_WEST);
    assert DIR_WEST == SelectOutPC(t, src, 0, eject, pc => pc as real);
    assert NextConn(t, src, DIR_WEST).router == 1 * t.cols + 0;
  }
}
