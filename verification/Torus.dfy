// The two-dimensional torus and its dimension-ordered routing with high and low virtual channels.

module Torus {
  import opened Wiring
  import opened Coordinates
  import opened Deadlock
  import opened MapSize

  // Topology2DTorus::getNextConn, which is getPrevConn as well.
  function NextConn(t: Grid, cur: int, outPc: int): Port
    requires t.Valid()
  {
    if outPc == DIR_WEST then Port(if t.X(cur) == 0 then cur + (t.cols - 1) else cur - 1, DIR_EAST)
    else if outPc == DIR_NORTH then
      Port(if t.Y(cur) == 0 then t.X(cur) + (t.rows - 1) * t.cols else cur - t.cols, DIR_SOUTH)
    else if outPc == DIR_EAST then Port(if t.X(cur) == t.cols - 1 then cur - (t.cols - 1) else cur + 1, DIR_WEST)
    else if outPc == DIR_SOUTH then Port(if t.Y(cur) == t.rows - 1 then t.X(cur) else cur + t.cols, DIR_NORTH)
    else Port(INVALID_ROUTER, DIR_INVALID)
  }

  // RoutingTorusStatic::selectOutPC; eject is the port to the destination's network interface.
  function SelectOutPC(t: Grid, cur: int, dest: int, eject: int): int
    requires t.Valid()
  {
    var xOffset := t.X(dest) - t.X(cur);
    var yOffset := t.Y(dest) - t.Y(cur);
    var xChange := Abs(xOffset) * 2 > t.cols;
    var yChange := Abs(yOffset) * 2 > t.rows;
    if dest == cur then eject
    else if xOffset > 0 then (if xChange then DIR_WEST else DIR_EAST)
    else if xOffset < 0 then (if xChange then DIR_EAST else DIR_WEST)
    else if yOffset > 0 then (if yChange then DIR_NORTH else DIR_SOUTH)
    else (if yChange then DIR_SOUTH else DIR_NORTH)
  }

  // RoutingTorusStatic::isOutVCDeadlockFree
  predicate Admits(t: Grid, outVc: int, cur: int, dest: int, nvc: int)
    requires t.Valid()
  {
    if t.X(cur) < t.X(dest) then nvc / 2 <= outVc < nvc
    else if t.X(cur) > t.X(dest) then 0 <= outVc < nvc / 2
    else if t.Y(cur) < t.Y(dest) then nvc / 2 <= outVc < nvc
    else if t.Y(cur) > t.Y(dest) then 0 <= outVc < nvc / 2
    else true
  }

  // Topology2DTorus::getMinHopCount, counting the source.
  function MinHopCount(t: Grid, src: int, dst: int): int
    requires t.Valid()
  {
    BestQuadrant(t.X(dst) - t.X(src), t.Y(dst) - t.Y(src), t.cols, t.rows) + 1
  }

  // The fewest hops over the four quadrants.
  function BestQuadrant(xOffset: int, yOffset: int, cols: int, rows: int): int {
    var east := if xOffset < 0 then cols + xOffset else xOffset;
    var west := if xOffset <= 0 then Abs(xOffset) else cols - xOffset;
    var south := if yOffset < 0 then rows + yOffset else yOffset;
    var north := if yOffset <= 0 then Abs(yOffset) else rows - yOffset;
    Min(Min(Min(east + south, west + north), east + north), west + south)
  }

  // ---------- coordinates ----------

  lemma At(t: Grid, x: int, y: int)
    requires t.Valid() && 0 <= x < t.cols && 0 <= y < t.rows
    ensures var id := y * t.cols + x; t.Router(id) && t.X(id) == x && t.Y(id) == y
  {
    IdOf(x, y, t.cols, t.rows);
  }

  // ---------- one ring ----------

  // One step along a ring of n routers, up (1) or down (-1), with its wrap-around link.
  function Step(c: int, up: bool, n: int): int {
    if up then (if c == n - 1 then 0 else c + 1) else (if c == 0 then n - 1 else c - 1)
  }

  // The way selectOutPC takes in one dimension.
  predicate Up(c: int, d: int, n: int) {
    if d > c then (d - c) * 2 <= n else (c - d) * 2 > n
  }

  // The distance on the ring.
  function Dist(c: int, d: int, n: int): int { Min(Abs(d - c), n - Abs(d - c)) }

  // The order of the channels of one direction: each passes from one class to the other at the wrap-around.
  function RingRank(up: bool, high: bool, c: int, n: int): int {
    if up then (if high then n + c else c) else (if high then n - 1 - c else n + n - 1 - c)
  }

  // A step comes nearer by one, keeps its direction and goes to a later channel.
  lemma RingStep(c: int, d: int, n: int)
    requires 0 <= c < n && 0 <= d < n && c != d
    ensures var c' := Step(c, Up(c, d, n), n);
            && 0 <= c' < n && Dist(c', d, n) == Dist(c, d, n) - 1
            && (c' != d ==> Up(c', d, n) == Up(c, d, n)
                            && RingRank(Up(c, d, n), c < d, c, n) < RingRank(Up(c, d, n), c' < d, c', n))
  {}

  // No step comes nearer by more than one.
  lemma RingNear(c: int, up: bool, d: int, n: int)
    requires 0 <= c < n && 0 <= d < n
    ensures 0 <= Step(c, up, n) < n && Dist(Step(c, up, n), d, n) >= Dist(c, d, n) - 1
  {}

  // ---------- the wiring ----------

  // The arithmetic of getNextConn, with the products it needs named.
  lemma NextIs(t: Grid, cur: int, pc: int, x: int, y: int, x': int, y': int)
    requires t.Valid() && Internal(pc) && x == t.X(cur) && y == t.Y(cur) && cur == y * t.cols + x
    requires (y + 1) * t.cols == y * t.cols + t.cols && (y - 1) * t.cols == y * t.cols - t.cols
    requires x' == (if pc == DIR_WEST || pc == DIR_EAST then Step(x, pc == DIR_EAST, t.cols) else x)
    requires y' == (if pc == DIR_NORTH || pc == DIR_SOUTH then Step(y, pc == DIR_SOUTH, t.rows) else y)
    ensures NextConn(t, cur, pc).router == y' * t.cols + x'
  {}

  lemma NextXY(t: Grid, cur: int, pc: int)
    requires t.Valid() && t.Router(cur) && Internal(pc)
    ensures var n := NextConn(t, cur, pc).router;
            && t.Router(n)
            && t.X(n) == (if pc == DIR_WEST || pc == DIR_EAST then Step(t.X(cur), pc == DIR_EAST, t.cols) else t.X(cur))
            && t.Y(n) == (if pc == DIR_NORTH || pc == DIR_SOUTH then Step(t.Y(cur), pc == DIR_SOUTH, t.rows)
                          else t.Y(cur))
  {
    Coords(t, cur);
    var x, y := t.X(cur), t.Y(cur);
    var x' := if pc == DIR_WEST || pc == DIR_EAST then Step(x, pc == DIR_EAST, t.cols) else x;
    var y' := if pc == DIR_NORTH || pc == DIR_SOUTH then Step(y, pc == DIR_SOUTH, t.rows) else y;
    At(t, x', y');
    Rows(y, t.cols);
    NextIs(t, cur, pc, x, y, x', y');
  }

  // Following a link and its reverse leads back: downstream and upstream tables name each other.
  lemma NextConnInvolution(t: Grid, cur: int, pc: int)
    requires t.Valid() && t.Router(cur) && Internal(pc)
    ensures var n := NextConn(t, cur, pc);
            t.Router(n.router) && Internal(n.pc) && NextConn(t, n.router, n.pc) == Port(cur, pc)
  {
    var n := NextConn(t, cur, pc);
    NextXY(t, cur, pc);
    NextXY(t, n.router, n.pc);
    Coords(t, cur);
    SameCoords(t, NextConn(t, n.router, n.pc).router, cur);
  }

  function Ports(t: Grid): set<Port> {
    set r, pc | 0 <= r < t.cols * t.rows && DIR_WEST <= pc <= DIR_SOUTH :: Port(r, pc)
  }

  // The network Topology2DTorus::buildTopology sets up: epc ports inject and eject, and every link takes
  // twice the configured latency. `par` gives the configuration that has nothing to do with the wiring.
  function Network(t: Grid, epc: nat, linkLat: nat, par: Topo): Topo
    requires t.Valid()
  {
    par.(npc := seq(t.cols * t.rows, _ => 4 + epc), nint := seq(t.cols * t.rows, _ => 4),
         next := map p | p in Ports(t) :: NextConn(t, p.router, p.pc),
         prev := map p | p in Ports(t) :: NextConn(t, p.router, p.pc),
         lat := map p | p in Ports(t) :: 2 * linkLat)
  }

  // It is a network in which the protocol is sound, and the routing function only gives ports it has.
  lemma TorusNetworkValid(t: Grid, epc: nat, linkLat: nat, par: Topo)
    requires t.Valid() && linkLat >= 1 && par.rsv <= par.depth
    ensures Network(t, epc, linkLat, par).Valid()
    ensures forall cur, dest, eject :: t.Router(cur) && t.Router(dest) && 4 <= eject < 4 + epc ==>
              Network(t, epc, linkLat, par).Routable(cur, SelectOutPC(t, cur, dest, eject))
  {
    var T := Network(t, epc, linkLat, par);
    forall p | p in Ports(t)
      ensures T.InternalPort(p) && T.InternalPort(NextConn(t, p.router, p.pc))
      ensures NextConn(t, p.router, p.pc) in Ports(t) && T.next[NextConn(t, p.router, p.pc)] == p {
      NextConnInvolution(t, p.router, p.pc);
    }
    forall cur, dest, eject | t.Router(cur) && t.Router(dest) && 4 <= eject < 4 + epc
      ensures T.Routable(cur, SelectOutPC(t, cur, dest, eject)) {
      var pc := SelectOutPC(t, cur, dest, eject);
      if cur != dest {
        NextConnInvolution(t, cur, pc);
        assert Port(cur, pc) in Ports(t);
      }
    }
  }

  // A router has the four ports of its links and epc ports that eject.
  lemma PortsAre(t: Grid, epc: nat, linkLat: nat, par: Topo, cur: int, pc: int)
    requires t.Valid() && t.Router(cur)
    ensures var T := Network(t, epc, linkLat, par);
            && (T.Down(Port(cur, pc)).Some? <==> Internal(pc))
            && (0 <= pc < T.npc[cur] && T.IsEject(cur, pc) <==> 4 <= pc < 4 + epc)
  {
    if Internal(pc) { LinkLatency(t, epc, linkLat, par, cur, pc); }
  }

  // Every port is wired, and every link takes twice the configured latency in both directions.
  lemma LinkLatency(t: Grid, epc: nat, linkLat: nat, par: Topo, cur: int, pc: int)
    requires t.Valid() && t.Router(cur) && Internal(pc)
    ensures var T := Network(t, epc, linkLat, par);
            var n := NextConn(t, cur, pc);
            T.Down(Port(cur, pc)) == Some(n) && T.Lat(Port(cur, pc)) == T.Lat(n) == linkLat + linkLat
  {
    NextConnInvolution(t, cur, pc);
    assert Port(cur, pc) in Ports(t) && NextConn(t, cur, pc) in Ports(t);
  }

  // ---------- shortest paths ----------

  function Distance(t: Grid, a: int, b: int): int
    requires t.Valid()
  {
    Dist(t.X(a), t.X(b), t.cols) + Dist(t.Y(a), t.Y(b), t.rows)
  }

  lemma BestIsDist(xa: int, xb: int, ya: int, yb: int, cols: int, rows: int)
    requires 0 <= xa < cols && 0 <= xb < cols && 0 <= ya < rows && 0 <= yb < rows
    ensures BestQuadrant(xb - xa, yb - ya, cols, rows) == Dist(xa, xb, cols) + Dist(ya, yb, rows)
    ensures Dist(xa, xb, cols) >= 0 && (Dist(xa, xb, cols) == 0 <==> xa == xb)
  {}

  lemma DistanceZero(t: Grid, a: int, b: int)
    requires t.Valid() && t.Router(a) && t.Router(b)
    ensures Distance(t, a, b) >= 0 && (Distance(t, a, b) == 0 <==> a == b)
  {
    SameCoords(t, a, b);
    InRange(t, a);
    InRange(t, b);
    DistZero(t.X(a), t.X(b), t.cols);
    DistZero(t.Y(a), t.Y(b), t.rows);
  }

  lemma DistZero(c: int, d: int, n: int)
    requires 0 <= c < n && 0 <= d < n
    ensures Dist(c, d, n) >= 0 && (Dist(c, d, n) == 0 <==> c == d)
  {}

  // The four quadrants of getMinHopCount give the sum of the two ring distances.
  lemma MinHopIsDistance(t: Grid, a: int, b: int)
    requires t.Valid() && t.Router(a) && t.Router(b)
    ensures MinHopCount(t, a, b) == Distance(t, a, b) + 1
  {
    InRange(t, a);
    InRange(t, b);
    BestIsDist(t.X(a), t.X(b), t.Y(a), t.Y(b), t.cols, t.rows);
  }

  ghost predicate Linked(t: Grid, a: int, b: int)
    requires t.Valid()
  {
    exists pc :: Internal(pc) && b == NextConn(t, a, pc).router
  }

  // Routers visited one after the other over links.
  ghost predicate Walk(t: Grid, w: seq<int>)
    requires t.Valid()
    decreases |w|
  {
    w != [] && if |w| == 1 then t.Router(w[0]) else Linked(t, w[0], w[1]) && t.Router(w[0]) && Walk(t, w[1..])
  }

  // No walk is shorter than getMinHopCount says.
  lemma {:induction false} NoShorterWalk(t: Grid, w: seq<int>)
    requires t.Valid() && Walk(t, w)
    ensures t.Router(w[0]) && t.Router(w[|w| - 1]) && |w| >= MinHopCount(t, w[0], w[|w| - 1])
    decreases |w|
  {
    var dest := w[|w| - 1];
    if |w| > 1 {
      NoShorterWalk(t, w[1..]);
      assert w[1..][|w| - 2] == dest;
      var pc :| Internal(pc) && w[1] == NextConn(t, w[0], pc).router;
      MinHopIsDistance(t, w[1], dest);
      LinkNear(t, w[0], pc, dest);
    }
    MinHopIsDistance(t, w[0], dest);
    DistanceZero(t, w[0], dest);
  }

  lemma LinkNear(t: Grid, a: int, pc: int, dest: int)
    requires t.Valid() && t.Router(a) && t.Router(dest) && Internal(pc)
    ensures Distance(t, NextConn(t, a, pc).router, dest) >= Distance(t, a, dest) - 1
  {
    NextXY(t, a, pc);
    InRange(t, a);
    InRange(t, dest);
    if pc == DIR_WEST || pc == DIR_EAST { RingNear(t.X(a), pc == DIR_EAST, t.X(dest), t.cols); }
    else { RingNear(t.Y(a), pc == DIR_SOUTH, t.Y(dest), t.rows); }
  }

  // One hop of the routing function comes nearer by one.
  lemma HopNearer(t: Grid, cur: int, dest: int, eject: int)
    requires t.Valid() && t.Router(cur) && t.Router(dest) && cur != dest
    ensures var pc := SelectOutPC(t, cur, dest, eject);
            var n := NextConn(t, cur, pc).router;
            Internal(pc) && t.Router(n) && Distance(t, n, dest) == Distance(t, cur, dest) - 1
  {
    InRange(t, cur);
    InRange(t, dest);
    SameCoords(t, cur, dest);
    NextXY(t, cur, SelectOutPC(t, cur, dest, eject));
    if t.X(cur) != t.X(dest) { RingStep(t.X(cur), t.X(dest), t.cols); }
    else { RingStep(t.Y(cur), t.Y(dest), t.rows); }
  }

  // The routers a packet visits.
  function Route(t: Grid, cur: int, dest: int, eject: int): seq<int>
    requires t.Valid() && t.Router(cur) && t.Router(dest)
    decreases Distance(t, cur, dest)
  {
    if cur == dest then [cur]
    else
      HopNearer(t, cur, dest, eject);
      DistanceZero(t, cur, dest);
      [cur] + Route(t, NextConn(t, cur, SelectOutPC(t, cur, dest, eject)).router, dest, eject)
  }

  lemma {:induction false} RouteIsWalk(t: Grid, cur: int, dest: int, eject: int)
    requires t.Valid() && t.Router(cur) && t.Router(dest)
    ensures var r := Route(t, cur, dest, eject);
            Walk(t, r) && r[0] == cur && r[|r| - 1] == dest && |r| == Distance(t, cur, dest) + 1
    decreases |Route(t, cur, dest, eject)|
  {
    var r := Route(t, cur, dest, eject);
    DistanceZero(t, cur, dest);
    if cur != dest {
      var n := NextConn(t, cur, SelectOutPC(t, cur, dest, eject)).router;
      HopNearer(t, cur, dest, eject);
      var rest := Route(t, n, dest, eject);
      assert r == [cur] + rest;
      RouteIsWalk(t, n, dest, eject);
      assert Linked(t, cur, n);
      assert r[1..] == rest;
    }
  }

  // Every packet arrives, in exactly getMinHopCount - 1 hops over links, and no walk is shorter.
  lemma RouteIsShortest(t: Grid, cur: int, dest: int, eject: int)
    requires t.Valid() && t.Router(cur) && t.Router(dest)
    ensures var r := Route(t, cur, dest, eject);
            && Walk(t, r) && r[0] == cur && r[|r| - 1] == dest && |r| == MinHopCount(t, cur, dest)
            && forall w :: Walk(t, w) && w[0] == cur && w[|w| - 1] == dest ==> |r| <= |w|
  {
    MinHopIsDistance(t, cur, dest);
    RouteIsWalk(t, cur, dest, eject);
    forall w | Walk(t, w) && w[0] == cur && w[|w| - 1] == dest ensures MinHopCount(t, cur, dest) <= |w| {
      NoShorterWalk(t, w);
    }
  }

  // ---------- deadlock ----------

  predicate High(vc: int, nvc: int) { nvc / 2 <= vc }

  // X channels before Y channels, each ring in the order of RingRank, ejection last.
  function Rank(t: Grid, nvc: int, c: Channel): int
    requires t.Valid()
  {
    if c.pc == DIR_WEST || c.pc == DIR_EAST then RingRank(c.pc == DIR_EAST, High(c.vc, nvc), t.X(c.router), t.cols)
    else if c.pc == DIR_NORTH || c.pc == DIR_SOUTH then
      2 * t.cols + RingRank(c.pc == DIR_SOUTH, High(c.vc, nvc), t.Y(c.router), t.rows)
    else 2 * t.cols + 2 * t.rows
  }

  // A channel the routing function gives a packet for dest at c.router.
  predicate Hop(t: Grid, nvc: int, eject: int, dest: int, c: Channel)
    requires t.Valid()
  {
    && t.Router(c.router) && 0 <= c.vc < nvc
    && c.pc == SelectOutPC(t, c.router, dest, eject) && Admits(t, c.vc, c.router, dest, nvc)
  }

  function Here(t: Grid, p: Packet): int
    requires t.Valid()
  {
    if p.path == [] then p.src else NextConn(t, Last(p).router, Last(p).pc).router
  }

  predicate Wants(t: Grid, nvc: int, eject: int, p: Packet, c: Channel)
    requires t.Valid()
  {
    c.router == Here(t, p) && Hop(t, nvc, eject, p.dest, c)
  }

  ghost predicate LegalAt(t: Grid, nvc: int, eject: int, p: Packet, i: int)
    requires t.Valid()
  {
    0 <= i < |p.path| ==>
      && Hop(t, nvc, eject, p.dest, p.path[i]) && p.path[i].router != p.dest
      && p.path[i].router == Here(t, p.(path := p.path[..i]))
  }

  // A packet that selectOutPC and isOutVCDeadlockFree have brought to where it is; it is still in the network.
  ghost predicate Legal(t: Grid, nvc: int, eject: int, p: Packet)
    requires t.Valid()
  {
    t.Router(p.src) && t.Router(p.dest) &&
      forall i {:trigger LegalAt(t, nvc, eject, p, i)} :: LegalAt(t, nvc, eject, p, i)
  }

  // The direction and the class of a hop are those of its ring.
  lemma HopRank(t: Grid, nvc: int, eject: int, dest: int, c: Channel)
    requires t.Valid() && nvc >= 2 && t.Router(dest) && Hop(t, nvc, eject, dest, c) && c.router != dest
    ensures Internal(c.pc)
    ensures var x, y, xd, yd := t.X(c.router), t.Y(c.router), t.X(dest), t.Y(dest);
            if x != xd then
              && (c.pc == DIR_WEST || c.pc == DIR_EAST) && (c.pc == DIR_EAST <==> Up(x, xd, t.cols))
              && Rank(t, nvc, c) == RingRank(Up(x, xd, t.cols), x < xd, x, t.cols) && 0 <= Rank(t, nvc, c) < 2 * t.cols
            else
              && y != yd && (c.pc == DIR_NORTH || c.pc == DIR_SOUTH) && (c.pc == DIR_SOUTH <==> Up(y, yd, t.rows))
              && Rank(t, nvc, c) == 2 * t.cols + RingRank(Up(y, yd, t.rows), y < yd, y, t.rows)
              && 2 * t.cols <= Rank(t, nvc, c) < 2 * t.cols + 2 * t.rows
  {
    InRange(t, c.router);
    InRange(t, dest);
    SameCoords(t, c.router, dest);
  }

  // Every hop leads to channels of higher rank.
  lemma HopRises(t: Grid, nvc: int, eject: int, dest: int, c: Channel, c': Channel)
    requires t.Valid() && nvc >= 2 && eject > DIR_SOUTH && t.Router(dest) && Hop(t, nvc, eject, dest, c) &&
             c.router != dest
    requires Internal(c.pc)
    requires c'.router == NextConn(t, c.router, c.pc).router && Hop(t, nvc, eject, dest, c')
    ensures 0 <= Rank(t, nvc, c) < Rank(t, nvc, c')
  {
    var r, r' := c.router, c'.router;
    HopRank(t, nvc, eject, dest, c);
    NextXY(t, r, c.pc);
    InRange(t, r);
    InRange(t, dest);
    if r' != dest {
      HopRank(t, nvc, eject, dest, c');
      if t.X(r) != t.X(dest) { RingStep(t.X(r), t.X(dest), t.cols); } else { RingStep(t.Y(r), t.Y(dest), t.rows); }
    }
  }

  // The destination's coordinate in the dimension of port pc is the greater one.
  predicate Greater(t: Grid, cur: int, dest: int, pc: int)
    requires t.Valid()
  {
    if pc == DIR_WEST || pc == DIR_EAST then t.X(dest) > t.X(cur) else t.Y(dest) > t.Y(cur)
  }

  // A packet at its destination is ejected. Before that the rows come first. In each dimension a packet goes in the
  // direction its coordinate differs in, and round the other way exactly if that is strictly shorter.
  lemma SelectedIs(t: Grid, cur: int, dest: int, eject: int)
    requires t.Valid() && t.Router(cur) && t.Router(dest)
    ensures cur == dest ==> SelectOutPC(t, cur, dest, eject) == eject
    ensures cur != dest ==>
            var pc := SelectOutPC(t, cur, dest, eject);
            var x, y, xd, yd := t.X(cur), t.Y(cur), t.X(dest), t.Y(dest);
            && Internal(pc) && (pc == DIR_WEST || pc == DIR_EAST <==> x != xd)
            && (x != xd ==> ((pc == DIR_EAST) != (xd > x) <==> t.cols - Abs(xd - x) < Abs(xd - x)))
            && (x == xd ==> ((pc == DIR_SOUTH) != (yd > y) <==> t.rows - Abs(yd - y) < Abs(yd - y)))
  {
    SameCoords(t, cur, dest);
  }

  // Before its destination a packet is admitted to the high half of the channels or to the low half: to all of the high
  // ones and no other exactly if the destination's coordinate is the greater one.
  lemma AdmitsIff(t: Grid, vc: int, cur: int, dest: int, eject: int, nvc: int)
    requires t.Valid() && t.Router(cur) && t.Router(dest) && cur != dest && 0 <= vc < nvc
    ensures Admits(t, vc, cur, dest, nvc) <==>
              (High(vc, nvc) <==> Greater(t, cur, dest, SelectOutPC(t, cur, dest, eject)))
  {
    SameCoords(t, cur, dest);
  }

  // So half of the channels are admitted, and at the destination all of them.
  lemma AdmitsHalf(t: Grid, cur: int, dest: int, eject: int, nvc: nat)
    requires t.Valid() && t.Router(cur) && t.Router(dest)
    ensures |set v | 0 <= v < nvc && Admits(t, v, cur, dest, nvc)| ==
              if cur == dest then nvc
              else if Greater(t, cur, dest, SelectOutPC(t, cur, dest, eject)) then nvc - nvc / 2 else nvc / 2
  {
    var low, high := if cur == dest || !Greater(t, cur, dest, SelectOutPC(t, cur, dest, eject)) then 0 else nvc / 2,
                     if cur == dest || Greater(t, cur, dest, SelectOutPC(t, cur, dest, eject)) then nvc else nvc / 2;
    forall v ensures 0 <= v < nvc && Admits(t, v, cur, dest, nvc) <==> low <= v < high {
      if 0 <= v < nvc && cur != dest { AdmitsIff(t, v, cur, dest, eject, nvc); }
    }
    BetweenSize(low, high);
    assert (set v | 0 <= v < nvc && Admits(t, v, cur, dest, nvc)) == Below(high) - Below(low);
  }

  // isOutVCDeadlockFree always leaves a virtual channel.
  lemma SomeVC(t: Grid, nvc: int, eject: int, cur: int, dest: int)
    requires t.Valid() && nvc >= 2 && t.Router(cur) && t.Router(dest)
    ensures exists c: Channel :: c.router == cur && Hop(t, nvc, eject, dest, c)
  {
    var pc := SelectOutPC(t, cur, dest, eject);
    assert Admits(t, 0, cur, dest, nvc) || Admits(t, nvc / 2, cur, dest, nvc);
    assert Hop(t, nvc, eject, dest, Channel(cur, pc, 0)) || Hop(t, nvc, eject, dest, Channel(cur, pc, nvc / 2));
  }

  lemma PathAt(t: Grid, nvc: int, eject: int, p: Packet, i: int)
    requires t.Valid() && nvc >= 2 && eject > DIR_SOUTH && Legal(t, nvc, eject, p) && 0 <= i < |p.path|
    ensures Hop(t, nvc, eject, p.dest, p.path[i]) && p.path[i].router != p.dest && Internal(p.path[i].pc)
    ensures Rank(t, nvc, p.path[i]) >= 0
    ensures i + 1 < |p.path| ==> Rank(t, nvc, p.path[i]) < Rank(t, nvc, p.path[i + 1])
  {
    assert LegalAt(t, nvc, eject, p, i);
    HopRank(t, nvc, eject, p.dest, p.path[i]);
    if i + 1 < |p.path| {
      assert LegalAt(t, nvc, eject, p, i + 1);
      assert p.path[..i + 1][i] == p.path[i];
      HopRises(t, nvc, eject, p.dest, p.path[i], p.path[i + 1]);
    }
  }

  lemma HereValid(t: Grid, nvc: int, eject: int, p: Packet)
    requires t.Valid() && nvc >= 2 && eject > DIR_SOUTH && Legal(t, nvc, eject, p)
    ensures t.Router(Here(t, p))
    ensures p.path != [] ==> forall c :: Wants(t, nvc, eject, p, c) ==> Rank(t, nvc, Last(p)) < Rank(t, nvc, c)
  {
    if p.path != [] {
      PathAt(t, nvc, eject, p, |p.path| - 1);
      NextXY(t, Last(p).router, Last(p).pc);
      forall c | Wants(t, nvc, eject, p, c) ensures Rank(t, nvc, Last(p)) < Rank(t, nvc, c) {
        HopRises(t, nvc, eject, p.dest, Last(p), c);
      }
    }
  }

  lemma PathOrdered(t: Grid, nvc: int, eject: int, p: Packet)
    requires t.Valid() && nvc >= 2 && eject > DIR_SOUTH && Legal(t, nvc, eject, p)
    ensures Ordered(p.path, c => Rank(t, nvc, c))
    ensures forall c :: c in p.path ==> Rank(t, nvc, c) >= 0
  {
    var rank := c => Rank(t, nvc, c);
    forall i ensures RisesAt(p.path, rank, i) {
      if 0 <= i < |p.path| - 1 { PathAt(t, nvc, eject, p, i); }
    }
    OrderedFrom(p.path, rank);
    forall c | c in p.path ensures Rank(t, nvc, c) >= 0 {
      var i :| 0 <= i < |p.path| && p.path[i] == c;
      PathAt(t, nvc, eject, p, i);
    }
  }

  lemma LegalRises(t: Grid, nvc: int, eject: int, p: Packet)
    requires t.Valid() && nvc >= 2 && eject > DIR_SOUTH && Legal(t, nvc, eject, p)
    ensures Rises(p, c => Rank(t, nvc, c), (p, c) => Wants(t, nvc, eject, p, c))
  {
    var wants := (p, c) => Wants(t, nvc, eject, p, c);
    PathOrdered(t, nvc, eject, p);
    HereValid(t, nvc, eject, p);
    assert exists c :: wants(p, c) by {
      SomeVC(t, nvc, eject, Here(t, p), p.dest);
      var c: Channel :| c.router == Here(t, p) && Hop(t, nvc, eject, p.dest, c);
      assert wants(p, c);
    }
  }

  // Deadlock freedom on every torus, wrap-around routes included: whatever packets the routing has brought
  // wherever, they do not all wait for one another.
  lemma TorusDeadlockFree(t: Grid, nvc: int, eject: int, S: set<Packet>)
    requires t.Valid() && nvc >= 2 && eject > DIR_SOUTH
    requires forall p {:trigger p in S} :: p in S ==> Legal(t, nvc, eject, p)
    ensures !Deadlocked(S, (p, c) => Wants(t, nvc, eject, p, c))
  {
    forall p | p in S ensures Rises(p, c => Rank(t, nvc, c), (p, c) => Wants(t, nvc, eject, p, c)) {
      LegalRises(t, nvc, eject, p);
    }
    NoDeadlock(S, c => Rank(t, nvc, c), (p, c) => Wants(t, nvc, eject, p, c));
  }
}
