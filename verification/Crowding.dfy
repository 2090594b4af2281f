// How packets crowd each other out of shared buffers for ever. On two injection ports of a router packets hold
// all output VCs of an ejection port, and on each of the two another packet waits for one. Where the processes
// of the waiting packets come next after the router, they take every place in the buffers that becomes free,
// until no flit is left in the router of the packets that hold the output VCs.

module Crowding {
  import opened Wiring
  import opened Flits
  import opened Protocol
  import opened Invariant
  import opened LinkProofs
  import opened StepProofs
  import opened Stages
  import opened Runs
  import opened Changes
  import opened Priorities
  import opened Folds
  import opened Timing
  import opened Crowds
  import opened RoutedPackets
  import opened Progress
  import opened Writers

  // ---------- what a network interface writes ----------

  // A process of a network interface has had its turn for input VC k, and has written a flit if there is room.
  ghost predicate Wrote(T: Topo, a: RouterState, b: RouterState, k: VC) {
    && b.c == a.c.(q := b.c.q) && b.link == a.link && b.deps == a.deps && b.ran == a.ran
    && (forall k' {:trigger Q(b.c, k')} :: k' != k ==> Q(b.c, k') == Q(a.c, k'))
    && (forall k' {:trigger Pending(b, k')} :: k' != k ==> Pending(b, k') == Pending(a, k'))
    && |Q(b.c, k)| == |Q(a.c, k)| + (if IsFull(T, a.c, k) then 0 else 1)
    && (forall pc {:trigger RowQ(b.c.q, pc, T.nvc)} ::
          RowQ(b.c.q, pc, T.nvc) == RowQ(a.c.q, pc, T.nvc) + (if pc == k.pc && !IsFull(T, a.c, k) then 1 else 0))
  }

  lemma InjectWrites(T: Topo, r: int, a: RouterState, k: VC)
    requires T.ValidVC(r, k) && Pending(a, k) != [] && !IsFull(T, a.c, k)
    ensures Wrote(T, a, Inject(a, k), k)
    ensures Stream(Inject(a, k).c, Inject(a, k).pending, k) == Stream(a.c, a.pending, k)
    ensures Pending(Inject(a, k), k) == Pending(a, k)[1..]
  {
    var b := Inject(a, k);
    var f := Pending(a, k)[0];
    assert Q(b.c, k) == Q(a.c, k) + [f];
    assert Pending(a, k) == [f] + Pending(b, k);
    forall pc ensures RowQ(b.c.q, pc, T.nvc) == RowQ(a.c.q, pc, T.nvc) + (if pc == k.pc then 1 else 0) {
      RowQSet(a.c.q, k, Q(a.c, k) + [f], pc, T.nvc);
    }
  }

  // The packet at k has been begun, or goes on.
  ghost predicate Goes(T: Topo, h: Hub, len: nat, a: RouterState, b: RouterState, k: VC) {
    && Wrote(T, a, b, k)
    && (var s, s' := Stream(a.c, a.pending, k), Stream(b.c, b.pending, k);
        s' == s || (s == [] && s' == Whole(T, h, len, k) && |Pending(b, k)| == len - 1))
    && (Stream(b.c, b.pending, k) != [] ==> Pending(b, k) != [] && Here(b.c, k) != [])
  }

  // k is the next to be begun, or has been, or waits.
  ghost predicate NextIs(T: Topo, h: Hub, m: int, b: RouterState, k: VC, st: InState, m': int) {
    if Holds(T, h, k) then
      SeatNo(T, h, k) <= m && m' == (if SeatNo(T, h, k) == m then m + 1 else m) && Stream(b.c, b.pending, k) != [] &&
        (st.I? ==> Q(b.c, k) != [])
    else Waiter(T, h, k) && st.V? && m' == m
  }

  lemma GoesOther(T: Topo, h: Hub, len: nat, m: int, a: RouterState, b: RouterState, k: VC, st: InState, m': int,
                  k': VC)
    requires Crowd(T, h, len, m, a.c, a.pending, st) && Wrote(T, a, b, k) && k' != k
    requires SeatNo(T, h, k') < m' ==> SeatNo(T, h, k') < m
    requires SeatNo(T, h, k') < m ==> SeatNo(T, h, k') < m'
    ensures Told(T, h, len, m', b.c, b.pending, k') && PlacedAt(T, h, b.c, st, k')
    ensures !st.V? && Waiter(T, h, k') ==> Stream(b.c, b.pending, k') == []
    ensures st.I? && 0 <= SeatNo(T, h, k') < m' ==> Q(b.c, k') != []
  {
    Known(T, h, len, m, a.c, a.pending, st, k');
    assert Q(b.c, k') == Q(a.c, k') && Pending(b, k') == Pending(a, k');
    assert In(b.c, k') == In(a.c, k') && Got(b.c, k') == Got(a.c, k');
  }

  lemma GoesSelf(T: Topo, h: Hub, len: nat, m: int, a: RouterState, b: RouterState, k: VC, st: InState, m': int)
    requires Crowd(T, h, len, m, a.c, a.pending, st) && Goes(T, h, len, a, b, k) && NextIs(T, h, m, b, k, st, m')
    ensures Told(T, h, len, m', b.c, b.pending, k) && PlacedAt(T, h, b.c, st, k)
  {
    Known(T, h, len, m, a.c, a.pending, st, k);
    assert In(b.c, k) == In(a.c, k);
  }

  lemma GoesCrowd(T: Topo, g: Routing, h: Hub, len: nat, m: int, a: RouterState, b: RouterState, k: VC, st: InState,
                  m': int)
    requires HubOk(T, g, h) && Crowd(T, h, len, m, a.c, a.pending, st) && Goes(T, h, len, a, b, k)
    requires NextIs(T, h, m, b, k, st, m')
    ensures Crowd(T, h, len, m', b.c, b.pending, st)
  {
    PeopleAre(T, g, h, k);
    GoesSelf(T, h, len, m, a, b, k, st, m');
    forall k'
      ensures Told(T, h, len, m', b.c, b.pending, k') && PlacedAt(T, h, b.c, st, k')
      ensures !st.V? && Waiter(T, h, k') ==> Stream(b.c, b.pending, k') == []
      ensures st.I? && 0 <= SeatNo(T, h, k') < m' ==> Q(b.c, k') != []
    {
      if k' != k { GoesOther(T, h, len, m, a, b, k, st, m', k'); }
    }
    WaitsSame(T, h, a.c, b.c);
    BusySame(T, a.c, b.c, st, h.e);
  }

  // ---------- the network around the router ----------

  ghost predicate OthersNew(s: Net, r: int) {
    0 <= r < |s.rs| && forall z {:trigger s.rs[z]} :: 0 <= z < |s.rs| && z != r ==> s.rs[z] == NEW_ROUTER
  }

  function Cap(T: Topo): nat { T.nvc * T.depth }

  function Row(T: Topo, rs: RouterState, pc: int): nat { RowQ(rs.c.q, pc, T.nvc) }

  // The program has come to a moment at which the packets of the first n seats are under way.
  ghost predicate Play(T: Topo, g: Routing, vp: Policy, pp: Policy, h: Hub, len: nat, m: Moment, n: int, st: InState) {
    && Comes(T, g, vp, pp, m) && Timed(T, m) && OthersNew(m.net, h.r) && Still(m.net.rs[h.r])
    && Crowd(T, h, len, n, m.net.rs[h.r].c, m.net.rs[h.r].pending, st)
    && Row(T, m.net.rs[h.r], h.i) <= Cap(T) && Row(T, m.net.rs[h.r], h.j) <= Cap(T)
  }

  // A process has had its turn.
  ghost predicate Acted(T: Topo, h: Hub, len: nat, m: Moment, m': Moment, k: VC) {
    && 0 <= h.r < |m.net.rs| == |m'.net.rs| && m'.start == m.start && m'.net.now == m.net.now
    && m'.turned == m.turned + {(h.r, k)} && Goes(T, h, len, m.net.rs[h.r], m'.net.rs[h.r], k)
    && m'.arbs == m.arbs
  }

  lemma FullIs(T: Topo, c: Ctl, k: VC)
    requires T.damq
    ensures IsFull(T, c, k) <==> RowQ(c.q, k.pc, T.nvc) >= Cap(T)
  {}

  lemma StillSame(T: Topo, a: RouterState, b: RouterState, k: VC)
    requires Still(a) && Wrote(T, a, b, k)
    ensures Still(b)
  {
    forall op ensures Link(b.link, op) == [] { assert Link(a.link, op) == []; }
  }

  lemma ActedPlay(T: Topo, g: Routing, vp: Policy, pp: Policy, h: Hub, len: nat, m: Moment, m': Moment, n: int,
                  st: InState, k: VC, n': int)
    requires HubOk(T, g, h) && Play(T, g, vp, pp, h, len, m, n, st) && Acted(T, h, len, m, m', k)
    requires Comes(T, g, vp, pp, m') && OthersNew(m'.net, h.r) && NextIs(T, h, n, m'.net.rs[h.r], k, st, n')
    ensures Play(T, g, vp, pp, h, len, m', n', st)
  {
    ComesLawful(T, g, vp, pp, m');
    var a, b := m.net.rs[h.r], m'.net.rs[h.r];
    GoesCrowd(T, g, h, len, n, a, b, k, st, n');
    StillSame(T, a, b, k);
    FullIs(T, a.c, k);
    PeopleAre(T, g, h, k);
    assert Row(T, b, h.i) == Row(T, a, h.i) + (if h.i == k.pc && !IsFull(T, a.c, k) then 1 else 0);
    assert Row(T, b, h.j) == Row(T, a, h.j) + (if h.j == k.pc && !IsFull(T, a.c, k) then 1 else 0);
  }

  // A packet that has been begun goes on.
  lemma TurnActs(T: Topo, g: Routing, h: Hub, len: nat, m: Moment, k: VC) returns (m': Moment)
    requires HubOk(T, g, h) && Timed(T, m) && OthersNew(m.net, h.r) && T.ValidVC(h.r, k) && T.IsEject(h.r, k.pc)
    requires (h.r, k) !in m.turned && |Pending(m.net.rs[h.r], k)| >= 2 && Here(m.net.rs[h.r].c, k) != []
    ensures m' == AfterEvent(T, m, Turn(h.r, k)) && Possible(T, g, m, Turn(h.r, k)) && Acted(T, h, len, m, m', k)
    ensures OthersNew(m'.net, h.r) && m'.used == m.used
    ensures Stream(m'.net.rs[h.r].c, m'.net.rs[h.r].pending, k) == Stream(m.net.rs[h.r].c, m.net.rs[h.r].pending, k)
    ensures |Pending(m'.net.rs[h.r], k)| >= |Pending(m.net.rs[h.r], k)| - 1
  {
    m' := AfterEvent(T, m, Turn(h.r, k));
    if !IsFull(T, m.net.rs[h.r].c, k) { InjectWrites(T, h.r, m.net.rs[h.r], k); }
  }

  // The packet is begun with the number of its VC.
  function Beginning(T: Topo, h: Hub, len: nat, k: VC): Event {
    Start(h.r, k, Number(T, h, k), Number(T, h, k) * len, len)
  }

  lemma StartIs(T: Topo, g: Routing, h: Hub, len: nat, m: Moment, k: VC) returns (m': Moment, y: RouterState)
    requires HubOk(T, g, h) && Timed(T, m) && OthersNew(m.net, h.r) && (Holds(T, h, k) || Waiter(T, h, k)) && len >= 1
    requires (h.r, k) !in m.turned && Pending(m.net.rs[h.r], k) == []
    requires !IsFull(T, m.net.rs[h.r].c, k) && Number(T, h, k) !in m.used
    ensures m' == AfterEvent(T, m, Beginning(T, h, len, k)) && Possible(T, g, m, Beginning(T, h, len, k))
    ensures y == Reserve(m.net.rs[h.r], k, Number(T, h, k), Number(T, h, k) * len, len) && Pending(y, k) != []
    ensures m'.net == Upd(Upd(m.net, h.r, y), h.r, Inject(y, k))
  {
    PeopleAre(T, g, h, k);
    m' := AfterEvent(T, m, Beginning(T, h, len, k));
    y := Reserved(T, g, m, h.r, k, Number(T, h, k), Number(T, h, k) * len, len);
  }

  lemma StartActs(T: Topo, g: Routing, h: Hub, len: nat, m: Moment, k: VC) returns (m': Moment)
    requires HubOk(T, g, h) && Timed(T, m) && OthersNew(m.net, h.r) && (Holds(T, h, k) || Waiter(T, h, k)) && len >= 2
    requires (h.r, k) !in m.turned && Stream(m.net.rs[h.r].c, m.net.rs[h.r].pending, k) == []
    requires !IsFull(T, m.net.rs[h.r].c, k) && Number(T, h, k) !in m.used
    ensures m' == AfterEvent(T, m, Beginning(T, h, len, k)) && Possible(T, g, m, Beginning(T, h, len, k))
    ensures Acted(T, h, len, m, m', k) && OthersNew(m'.net, h.r) && m'.used == m.used + {Number(T, h, k)}
    ensures Stream(m'.net.rs[h.r].c, m'.net.rs[h.r].pending, k) == Whole(T, h, len, k)
  {
    var y;
    m', y := StartIs(T, g, h, len, m, k);
    PeopleAre(T, g, h, k);
    StartWrites(T, h, len, m.net.rs[h.r], y, k);
    assert m'.net.rs[h.r] == Inject(y, k);
  }

  lemma StartWrites(T: Topo, h: Hub, len: nat, a: RouterState, y: RouterState, k: VC)
    requires T.ValidVC(h.r, k) && Stream(a.c, a.pending, k) == [] && !IsFull(T, a.c, k) && len >= 2
    requires y == Reserve(a, k, Number(T, h, k), Number(T, h, k) * len, len) && Pending(y, k) != []
    ensures Goes(T, h, len, a, Inject(y, k), k)
    ensures Stream(Inject(y, k).c, Inject(y, k).pending, k) == Whole(T, h, len, k)
  {
    assert Pending(y, k) == Whole(T, h, len, k) && y.c == a.c;
    InjectWrites(T, h.r, y, k);
    ReserveWrites(T, a, y, Inject(y, k), k);
  }

  lemma ReserveWrites(T: Topo, a: RouterState, y: RouterState, b: RouterState, k: VC)
    requires Wrote(T, y, b, k) && y.c == a.c && y.link == a.link && y.deps == a.deps && y.ran == a.ran
    requires forall k' :: k' != k ==> Pending(y, k') == Pending(a, k')
    ensures Wrote(T, a, b, k)
  {
    forall k' | k' != k ensures Pending(b, k') == Pending(a, k') { assert Pending(b, k') == Pending(y, k'); }
  }

  // ---------- one round ----------

  // Whoever has been begun has more than so many flits to be written.
  ghost predicate Supplied(T: Topo, h: Hub, rs: RouterState, left: int) {
    forall k {:trigger Pending(rs, k)} :: Stream(rs.c, rs.pending, k) != [] ==> |Pending(rs, k)| > left
  }

  // The numbers of packets that are still to be begun have not been used.
  ghost predicate Unused(T: Topo, h: Hub, m: Moment)
    requires 0 <= h.r < |m.net.rs|
  {
    forall k {:trigger Number(T, h, k)} ::
      Waiter(T, h, k) && Stream(m.net.rs[h.r].c, m.net.rs[h.r].pending, k) == [] ==> Number(T, h, k) !in m.used
  }

  // Before the router runs: those that hold an output VC, or will, have had their turns.
  ghost predicate Noon(T: Topo, g: Routing, vp: Policy, pp: Policy, h: Hub, len: nat, left: int, m: Moment, st: InState,
                       early: bool) {
    && Play(T, g, vp, pp, h, len, m, T.nvc, st) && m.net.rs[h.r].ran < m.net.now
    && 0 <= h.r < |m.start.rs| && Came(T, h, m.start, m.net.rs[h.r].c, early)
    && Supplied(T, h, m.net.rs[h.r], left) && Unused(T, h, m) && Row(T, m.net.rs[h.r], h.i) >= 1
    && (forall k {:trigger (h.r, k) in m.turned} :: (h.r, k) in m.turned <==> Holds(T, h, k))
  }

  lemma {:induction false} RowInside(q: map<VC, seq<Flit>>, pc: int, n: nat, nvc: nat)
    requires 0 <= pc < n
    ensures SumQ(q, n, nvc) >= RowQ(q, pc, nvc)
  {
    if pc < n - 1 { RowInside(q, pc, n - 1, nvc); }
  }

  lemma {:induction false} LinksNone(link: map<int, seq<Wire>>, n: nat)
    requires forall op {:trigger Link(link, op)} :: Link(link, op) == []
    ensures SumLink(link, n) == 0
  {
    if n > 0 { LinksNone(link, n - 1); }
  }

  lemma NoonAwake(T: Topo, g: Routing, vp: Policy, pp: Policy, h: Hub, len: nat, left: int, m: Moment, st: InState,
                  early: bool)
    requires HubOk(T, g, h) && Noon(T, g, vp, pp, h, len, left, m, st, early)
    ensures Awake(m.net.rs[h.r]) && Ready(T, g, h, len, m, st, early)
  {
    ComesLawful(T, g, vp, pp, m);
    LawfulGood(T, g, m.net);
    var rs := m.net.rs[h.r];
    assert InsideOk(T, h.r, rs);
    RowInside(rs.c.q, h.i, T.npc[h.r], T.nvc);
    LinksNone(rs.link, T.npc[h.r]);
  }

  // The flit that crosses leaves the buffer of its port.
  lemma CrossedRows(T: Topo, g: Routing, h: Hub, c: Ctl, w: int, c': Ctl)
    requires HubOk(T, g, h) && PortWaits(T, h, c, w) && SameFlits(CrossedC(c, w), c')
    ensures forall pc {:trigger RowQ(c'.q, pc, T.nvc)} ::
              RowQ(c'.q, pc, T.nvc) == RowQ(c.q, pc, T.nvc) - (if w >= 0 && pc == w then 1 else 0)
    ensures forall k :: Waiter(T, h, k) ==> Q(c', k) == Q(c, k)
  {
    if w >= 0 {
      var k0 := VC(w, Waiting(c, w));
      PeopleAre(T, g, h, k0);
      forall pc ensures RowQ(c'.q, pc, T.nvc) == RowQ(c.q, pc, T.nvc) - (if pc == w then 1 else 0) {
        RowQSet(c.q, k0, Q(c, k0)[1..], pc, T.nvc);
      }
      forall k | Waiter(T, h, k) ensures Q(c', k) == Q(c, k) { assert k != k0; }
    }
  }

  // After the router has run: the flit that waited at port w has gone.
  ghost predicate Went(T: Topo, h: Hub, m: Moment, m': Moment, w: int) {
    && 0 <= h.r < |m.net.rs| == |m'.net.rs| && PortWaits(T, h, m.net.rs[h.r].c, w)
    && m'.start == m.start && m'.turned == m.turned && m'.used == m.used && m'.net.now == m.net.now
    && m'.net.rs[h.r].ran == m.net.now && m'.net.rs[h.r].pending == m.net.rs[h.r].pending
    && SameFlits(CrossedC(m.net.rs[h.r].c, w), m'.net.rs[h.r].c)
  }

  lemma RunAtNoon(T: Topo, g: Routing, vp: Policy, pp: Policy, h: Hub, len: nat, left: int, m: Moment, st: InState,
                  early: bool)
    returns (m': Moment, w: int)
    requires HubOk(T, g, h) && Noon(T, g, vp, pp, h, len, left, m, st, early)
    ensures Play(T, g, vp, pp, h, len, m', T.nvc, NextSt(T, st, early)) && Went(T, h, m, m', w)
    ensures st.V? && (exists k :: Holds(T, h, k) && Q(m'.net.rs[h.r].c, k) != []) ==> !NoneWaiting(m'.net.rs[h.r].c)
    ensures st.V? && !early ==> AllAsk(T, h, m'.net.rs[h.r].c)
  {
    NoonAwake(T, g, vp, pp, h, len, left, m, st, early);
    var ch;
    ch, w := Calls(T, g, h, len, m, st, early);
    m' := AfterEvent(T, m, Run(h.r, ch));
    ComesNext(T, g, vp, pp, m, Run(h.r, ch));
    ComesLawful(T, g, vp, pp, m');
    RunPlays(T, g, h, len, m, m', st, NextSt(T, st, early), w);
  }

  lemma RunPlays(T: Topo, g: Routing, h: Hub, len: nat, m: Moment, m': Moment, st: InState, st': InState, w: int)
    requires HubOk(T, g, h) && OthersNew(m.net, h.r) && Still(m.net.rs[h.r])
    requires Does(T, h, len, m.net, m'.net, st, st', w)
    requires Row(T, m.net.rs[h.r], h.i) <= Cap(T) && Row(T, m.net.rs[h.r], h.j) <= Cap(T)
    ensures OthersNew(m'.net, h.r) && Still(m'.net.rs[h.r])
    ensures Row(T, m'.net.rs[h.r], h.i) <= Cap(T) && Row(T, m'.net.rs[h.r], h.j) <= Cap(T)
  {
    CrossedRows(T, g, h, m.net.rs[h.r].c, w, m'.net.rs[h.r].c);
    forall op ensures Link(m'.net.rs[h.r].link, op) == [] { assert Link(m.net.rs[h.r].link, op) == []; }
  }

  // One that waits has had its turn: it goes on, or is begun, if there is room.
  ghost predicate Tried(T: Topo, h: Hub, len: nat, m: Moment, m': Moment, k: VC)
    requires 0 <= h.r < |m.net.rs| && h.r < |m'.net.rs|
  {
    var a, b := m.net.rs[h.r], m'.net.rs[h.r];
    && m'.start == m.start && m'.net.now == m.net.now && Goes(T, h, len, a, b, k)
    && m.turned <= m'.turned <= m.turned + {(h.r, k)} && (Stream(b.c, b.pending, k) != [] ==> (h.r, k) in m'.turned)
    && (Stream(b.c, b.pending, k) != [] ==>
          |Pending(b, k)| >= (if Stream(a.c, a.pending, k) == [] then len else |Pending(a, k)|) - 1)
  }

  lemma GoesOnTrying(T: Topo, g: Routing, vp: Policy, pp: Policy, h: Hub, len: nat, m: Moment, k: VC)
    returns (m': Moment)
    requires HubOk(T, g, h) && Play(T, g, vp, pp, h, len, m, T.nvc, V) && Waiter(T, h, k)
    requires (h.r, k) !in m.turned && Unused(T, h, m)
    requires Stream(m.net.rs[h.r].c, m.net.rs[h.r].pending, k) != [] && |Pending(m.net.rs[h.r], k)| >= 2
    ensures Play(T, g, vp, pp, h, len, m', T.nvc, V) && Tried(T, h, len, m, m', k) && Unused(T, h, m')
  {
    var a := m.net.rs[h.r];
    PeopleAre(T, g, h, k);
    Known(T, h, len, T.nvc, a.c, a.pending, V, k);
    m' := TurnActs(T, g, h, len, m, k);
    ComesNext(T, g, vp, pp, m, Turn(h.r, k));
    ActedPlay(T, g, vp, pp, h, len, m, m', T.nvc, V, k, T.nvc);
    UnusedStill(T, g, h, m, m', k);
  }

  lemma BeginsTrying(T: Topo, g: Routing, vp: Policy, pp: Policy, h: Hub, len: nat, m: Moment, k: VC)
    returns (m': Moment)
    requires HubOk(T, g, h) && Play(T, g, vp, pp, h, len, m, T.nvc, V) && len >= 2 && Waiter(T, h, k)
    requires (h.r, k) !in m.turned && Unused(T, h, m) && !IsFull(T, m.net.rs[h.r].c, k)
    requires Stream(m.net.rs[h.r].c, m.net.rs[h.r].pending, k) == []
    ensures Play(T, g, vp, pp, h, len, m', T.nvc, V) && Tried(T, h, len, m, m', k) && Unused(T, h, m')
  {
    PeopleAre(T, g, h, k);
    m' := StartActs(T, g, h, len, m, k);
    ComesNext(T, g, vp, pp, m, Beginning(T, h, len, k));
    ActedPlay(T, g, vp, pp, h, len, m, m', T.nvc, V, k, T.nvc);
    UnusedStill(T, g, h, m, m', k);
  }

  lemma Tries(T: Topo, g: Routing, vp: Policy, pp: Policy, h: Hub, len: nat, m: Moment, k: VC) returns (m': Moment)
    requires HubOk(T, g, h) && Play(T, g, vp, pp, h, len, m, T.nvc, V) && len >= 2 && Waiter(T, h, k)
    requires (h.r, k) !in m.turned && Unused(T, h, m)
    requires Stream(m.net.rs[h.r].c, m.net.rs[h.r].pending, k) != [] ==> |Pending(m.net.rs[h.r], k)| >= 2
    ensures Play(T, g, vp, pp, h, len, m', T.nvc, V) && Tried(T, h, len, m, m', k) && Unused(T, h, m')
  {
    var a := m.net.rs[h.r];
    if Stream(a.c, a.pending, k) != [] {
      m' := GoesOnTrying(T, g, vp, pp, h, len, m, k);
    } else if !IsFull(T, a.c, k) {
      m' := BeginsTrying(T, g, vp, pp, h, len, m, k);
    } else {
      m' := m;
    }
  }

  lemma UnusedStill(T: Topo, g: Routing, h: Hub, m: Moment, m': Moment, k: VC)
    requires HubOk(T, g, h) && 0 <= h.r < |m.net.rs| && h.r < |m'.net.rs| && Unused(T, h, m)
    requires Wrote(T, m.net.rs[h.r], m'.net.rs[h.r], k) && (Holds(T, h, k) || Waiter(T, h, k))
    requires Stream(m'.net.rs[h.r].c, m'.net.rs[h.r].pending, k) != []
    requires m'.used <= m.used + {Number(T, h, k)}
    ensures Unused(T, h, m')
  {
    forall k' | Waiter(T, h, k') && Stream(m'.net.rs[h.r].c, m'.net.rs[h.r].pending, k') == []
      ensures Number(T, h, k') !in m'.used
    {
      PeopleAre(T, g, h, k);
      assert Q(m'.net.rs[h.r].c, k') == Q(m.net.rs[h.r].c, k') &&
             Pending(m'.net.rs[h.r], k') == Pending(m.net.rs[h.r], k');
    }
  }

  // The cycle is over.
  lemma Passes(T: Topo, g: Routing, vp: Policy, pp: Policy, h: Hub, len: nat, m: Moment, st: InState)
    returns (m': Moment)
    requires HubOk(T, g, h) && Play(T, g, vp, pp, h, len, m, T.nvc, st) && m.net.rs[h.r].ran == m.net.now
    requires forall k {:trigger Pending(m.net.rs[h.r], k)} :: Pending(m.net.rs[h.r], k) != [] ==> (h.r, k) in m.turned
    ensures Play(T, g, vp, pp, h, len, m', T.nvc, st) && m'.turned == {} && m'.start == m'.net && m'.used == m.used
    ensures m'.net.rs == m.net.rs && m'.net.now == m.net.now + 1
  {
    forall r, k | T.ValidVC(r, k) ensures Pending(m.net.rs[r], k) != [] ==> (r, k) in m.turned {
      if r != h.r { assert m.net.rs[r] == NEW_ROUTER; }
    }
    m' := AfterEvent(T, m, Pass);
    ComesNext(T, g, vp, pp, m, Pass);
    ComesLawful(T, g, vp, pp, m');
  }

  // Those of the first n seats have had their turns.
  ghost predicate SeatsTurned(T: Topo, h: Hub, len: nat, m: Moment, m': Moment, n: nat)
    requires 0 <= h.r < |m.net.rs| && h.r < |m'.net.rs|
  {
    var a, b := m.net.rs[h.r], m'.net.rs[h.r];
    && m'.start == m.start && m'.used == m.used && m'.net.now == m.net.now && b.ran == a.ran
    && b.c == a.c.(q := b.c.q)
    && (forall k {:trigger (h.r, k) in m'.turned} :: (h.r, k) in m'.turned <==> 0 <= SeatNo(T, h, k) < n)
    && (forall k {:trigger Q(b.c, k)} :: !(0 <= SeatNo(T, h, k) < n) ==> Q(b.c, k) == Q(a.c, k))
    && (forall k {:trigger Pending(b, k)} :: Stream(b.c, b.pending, k) == Stream(a.c, a.pending, k) &&
          |Pending(b, k)| >= |Pending(a, k)| - (if 0 <= SeatNo(T, h, k) < n then 1 else 0))
    && Row(T, b, h.i) >= Row(T, a, h.i) && Row(T, b, h.j) >= Row(T, a, h.j)
    && (n >= 1 ==> Row(T, b, h.i) > Row(T, a, h.i) || Row(T, b, h.i) >= Cap(T))
    && (n >= T.nvc ==> Row(T, b, h.j) > Row(T, a, h.j) || Row(T, b, h.j) >= Cap(T))
  }

  lemma NoneTurned(T: Topo, h: Hub, len: nat, m: Moment)
    requires 0 <= h.r < |m.net.rs| && m.turned == {} && T.nvc >= 1
    ensures SeatsTurned(T, h, len, m, m, 0)
  {}

  lemma SeatTurns(T: Topo, g: Routing, vp: Policy, pp: Policy, h: Hub, len: nat, m: Moment, m1: Moment, st: InState,
                  n: nat)
    returns (m': Moment)
    requires HubOk(T, g, h) && 0 <= h.r < |m.net.rs| && Play(T, g, vp, pp, h, len, m1, T.nvc, st) && n < T.nvc &&
             len >= 1
    requires SeatsTurned(T, h, len, m, m1, n) && |Pending(m.net.rs[h.r], Seat(T, h, n))| >= 2
    ensures Play(T, g, vp, pp, h, len, m', T.nvc, st) && SeatsTurned(T, h, len, m, m', n + 1)
  {
    var k := Seat(T, h, n);
    SeatIs(T, g, h, n);
    PeopleAre(T, g, h, k);
    var a := m1.net.rs[h.r];
    Known(T, h, len, T.nvc, a.c, a.pending, st, k);
    assert |Pending(a, k)| >= |Pending(m.net.rs[h.r], k)|;
    m' := TurnActs(T, g, h, len, m1, k);
    ComesNext(T, g, vp, pp, m1, Turn(h.r, k));
    ActedPlay(T, g, vp, pp, h, len, m1, m', T.nvc, st, k, T.nvc);
    FullIs(T, a.c, k);
    SeatTurned(T, h, len, m, m1, m', k, n);
  }

  lemma SeatTurned(T: Topo, h: Hub, len: nat, m: Moment, m1: Moment, m': Moment, k: VC, n: nat)
    requires 0 <= h.r < |m.net.rs| && h.r < |m1.net.rs| && h.r < |m'.net.rs| && SeatsTurned(T, h, len, m, m1, n)
    requires Acted(T, h, len, m1, m', k) && k == Seat(T, h, n) && n < T.nvc && T.nvc >= 2 && T.damq &&
             m'.used == m1.used
    requires forall k' :: SeatNo(T, h, k') == n <==> k' == k
    requires Stream(m'.net.rs[h.r].c, m'.net.rs[h.r].pending, k) == Stream(m1.net.rs[h.r].c, m1.net.rs[h.r].pending, k)
    requires |Pending(m'.net.rs[h.r], k)| >= |Pending(m1.net.rs[h.r], k)| - 1
    ensures SeatsTurned(T, h, len, m, m', n + 1)
  {
    var a, b, c := m.net.rs[h.r], m1.net.rs[h.r], m'.net.rs[h.r];
    FullIs(T, b.c, k);
    forall k'
      ensures Stream(c.c, c.pending, k') == Stream(a.c, a.pending, k')
      ensures |Pending(c, k')| >= |Pending(a, k')| - (if 0 <= SeatNo(T, h, k') < n + 1 then 1 else 0)
      ensures !(0 <= SeatNo(T, h, k') < n + 1) ==> Q(c.c, k') == Q(a.c, k')
    {
      assert |Pending(b, k')| >= |Pending(a, k')| - (if 0 <= SeatNo(T, h, k') < n then 1 else 0);
      if k' != k { assert Q(c.c, k') == Q(b.c, k') && Pending(c, k') == Pending(b, k'); }
    }
    assert Row(T, c, h.i) == Row(T, b, h.i) + (if h.i == k.pc && !IsFull(T, b.c, k) then 1 else 0);
    assert Row(T, c, h.j) == Row(T, b, h.j) + (if h.j == k.pc && !IsFull(T, b.c, k) then 1 else 0);
  }

  ghost predicate SomeTurned(T: Topo, g: Routing, vp: Policy, pp: Policy, h: Hub, len: nat, m: Moment, st: InState,
                             n: nat)
    requires 0 <= h.r < |m.net.rs|
  {
    exists m' :: Play(T, g, vp, pp, h, len, m', T.nvc, st) && SeatsTurned(T, h, len, m, m', n)
  }

  lemma OneMoreTurned(T: Topo, g: Routing, vp: Policy, pp: Policy, h: Hub, len: nat, m: Moment, st: InState, n: nat)
    requires HubOk(T, g, h) && 0 <= h.r < |m.net.rs| && n < T.nvc && len >= 1
    requires |Pending(m.net.rs[h.r], Seat(T, h, n))| >= 2 && SomeTurned(T, g, vp, pp, h, len, m, st, n)
    ensures SomeTurned(T, g, vp, pp, h, len, m, st, n + 1)
  {
    var m1 :| Play(T, g, vp, pp, h, len, m1, T.nvc, st) && SeatsTurned(T, h, len, m, m1, n);
    var m' := SeatTurns(T, g, vp, pp, h, len, m, m1, st, n);
  }

  lemma AllTurned(T: Topo, g: Routing, vp: Policy, pp: Policy, h: Hub, len: nat, m: Moment, st: InState)
    requires HubOk(T, g, h) && 0 <= h.r < |m.net.rs| && len >= 1 && SomeTurned(T, g, vp, pp, h, len, m, st, 0)
    requires forall k {:trigger Pending(m.net.rs[h.r], k)} :: Holds(T, h, k) ==> |Pending(m.net.rs[h.r], k)| >= 2
    ensures SomeTurned(T, g, vp, pp, h, len, m, st, T.nvc)
  {
    var p := (n: nat) => SomeTurned(T, g, vp, pp, h, len, m, st, n);
    forall n: nat | n < T.nvc ensures Onward(p, n) {
      SeatIs(T, g, h, n);
      if p(n) { OneMoreTurned(T, g, vp, pp, h, len, m, st, n); }
    }
    Climb(p, T.nvc);
  }

  lemma HoldersTurn(T: Topo, g: Routing, vp: Policy, pp: Policy, h: Hub, len: nat, m: Moment, st: InState)
    returns (m': Moment)
    requires HubOk(T, g, h) && Play(T, g, vp, pp, h, len, m, T.nvc, st) && m.turned == {} && len >= 1
    requires forall k {:trigger Pending(m.net.rs[h.r], k)} :: Holds(T, h, k) ==> |Pending(m.net.rs[h.r], k)| >= 2
    ensures Play(T, g, vp, pp, h, len, m', T.nvc, st) && SeatsTurned(T, h, len, m, m', T.nvc)
  {
    NoneTurned(T, h, len, m);
    AllTurned(T, g, vp, pp, h, len, m, st);
    m' :| Play(T, g, vp, pp, h, len, m', T.nvc, st) && SeatsTurned(T, h, len, m, m', T.nvc);
  }

  // What the waiting packet of a port has in its buffer, and what the others of the port have.
  function Own(T: Topo, h: Hub, rs: RouterState, pc: int): nat { |Q(rs.c, Last(T, h, pc))| }

  function Others(T: Topo, h: Hub, rs: RouterState): int {
    Row(T, rs, h.i) - Own(T, h, rs, h.i) + Row(T, rs, h.j) - Own(T, h, rs, h.j)
  }

  // Those that wait have had their turns: each has taken a free place of its port, if there was one.
  ghost predicate BothTried(T: Topo, h: Hub, len: nat, m: Moment, m': Moment)
    requires 0 <= h.r < |m.net.rs| && h.r < |m'.net.rs|
  {
    var a, b := m.net.rs[h.r], m'.net.rs[h.r];
    && m'.start == m.start && m'.net.now == m.net.now && b.ran == a.ran && b.c == a.c.(q := b.c.q)
    && (forall k {:trigger (h.r, k) in m'.turned} :: (h.r, k) in m.turned ==> (h.r, k) in m'.turned)
    && (forall k {:trigger Pending(b, k)} ::
          && (!Waiter(T, h, k) ==> Pending(b, k) == Pending(a, k) && Q(b.c, k) == Q(a.c, k))
          && (Waiter(T, h, k) && Stream(b.c, b.pending, k) != [] ==>
                (h.r, k) in m'.turned &&
                |Pending(b, k)| >= (if Stream(a.c, a.pending, k) == [] then len else |Pending(a, k)|) - 1))
    && Gained(T, h, a, b, h.i) && Gained(T, h, a, b, h.j)
  }

  ghost predicate Gained(T: Topo, h: Hub, a: RouterState, b: RouterState, pc: int) {
    var n := if Row(T, a, pc) < Cap(T) then 1 else 0;
    Row(T, b, pc) == Row(T, a, pc) + n && Own(T, h, b, pc) == Own(T, h, a, pc) + n
  }

  lemma BothAre(T: Topo, g: Routing, h: Hub, len: nat, m: Moment, m1: Moment, m': Moment)
    requires HubOk(T, g, h) && 0 <= h.r < |m.net.rs| && h.r < |m1.net.rs| && h.r < |m'.net.rs|
    requires Tried(T, h, len, m, m1, Last(T, h, h.i)) && Tried(T, h, len, m1, m', Last(T, h, h.j))
    ensures BothTried(T, h, len, m, m')
  {
    var a, b, c := m.net.rs[h.r], m1.net.rs[h.r], m'.net.rs[h.r];
    var k1, k2 := Last(T, h, h.i), Last(T, h, h.j);
    FullIs(T, a.c, k1);
    FullIs(T, b.c, k2);
    assert Row(T, b, h.i) == Row(T, a, h.i) + (if !IsFull(T, a.c, k1) then 1 else 0) &&
           Row(T, b, h.j) == Row(T, a, h.j);
    assert Row(T, c, h.j) == Row(T, b, h.j) + (if !IsFull(T, b.c, k2) then 1 else 0) &&
           Row(T, c, h.i) == Row(T, b, h.i);
    assert Q(b.c, k2) == Q(a.c, k2) && Q(c.c, k1) == Q(b.c, k1) && Pending(b, k2) == Pending(a, k2);
    forall k
      ensures !Waiter(T, h, k) ==> Pending(c, k) == Pending(a, k) && Q(c.c, k) == Q(a.c, k)
      ensures Waiter(T, h, k) && Stream(c.c, c.pending, k) != [] ==>
                (h.r, k) in m'.turned &&
                |Pending(c, k)| >= (if Stream(a.c, a.pending, k) == [] then len else |Pending(a, k)|) - 1
    {
      if k != k2 { assert Q(c.c, k) == Q(b.c, k) && Pending(c, k) == Pending(b, k); }
      if k != k1 { assert Q(b.c, k) == Q(a.c, k) && Pending(b, k) == Pending(a, k); }
    }
  }

  lemma BothTry(T: Topo, g: Routing, vp: Policy, pp: Policy, h: Hub, len: nat, m: Moment) returns (m': Moment)
    requires HubOk(T, g, h) && Play(T, g, vp, pp, h, len, m, T.nvc, V) && len >= 2 && Unused(T, h, m)
    requires forall k {:trigger (h.r, k) in m.turned} :: (h.r, k) in m.turned ==> Holds(T, h, k)
    requires Supplied(T, h, m.net.rs[h.r], 1)
    ensures Play(T, g, vp, pp, h, len, m', T.nvc, V) && BothTried(T, h, len, m, m') && Unused(T, h, m')
  {
    var k1, k2 := Last(T, h, h.i), Last(T, h, h.j);
    PeopleAre(T, g, h, k1);
    PeopleAre(T, g, h, k2);
    assert (h.r, k1) !in m.turned && (h.r, k2) !in m.turned;
    assert Stream(m.net.rs[h.r].c, m.net.rs[h.r].pending, k1) != [] ==> |Pending(m.net.rs[h.r], k1)| > 1;
    assert Stream(m.net.rs[h.r].c, m.net.rs[h.r].pending, k2) != [] ==> |Pending(m.net.rs[h.r], k2)| > 1;
    var m1 := Tries(T, g, vp, pp, h, len, m, k1);
    assert Q(m1.net.rs[h.r].c, k2) == Q(m.net.rs[h.r].c, k2) &&
           Pending(m1.net.rs[h.r], k2) == Pending(m.net.rs[h.r], k2);
    m' := Tries(T, g, vp, pp, h, len, m1, k2);
    BothAre(T, g, h, len, m, m1, m');
  }

  lemma {:induction false} SomeOther(q: map<VC, seq<Flit>>, pc: int, n: nat, v: int) returns (k: VC)
    requires RowQ(q, pc, n) > |Queue(q, VC(pc, v))|
    ensures k.pc == pc && k.vc != v && 0 <= k.vc < n && Queue(q, k) != []
  {
    k := VC(pc, n - 1);
    if n - 1 == v || Queue(q, k) == [] {
      if n - 1 == v { k := SomeAt(q, pc, n - 1); } else { k := SomeOther(q, pc, n - 1, v); }
    }
  }

  lemma {:induction false} SomeAt(q: map<VC, seq<Flit>>, pc: int, n: nat) returns (k: VC)
    requires RowQ(q, pc, n) > 0
    ensures k.pc == pc && 0 <= k.vc < n && Queue(q, k) != []
  {
    k := VC(pc, n - 1);
    if Queue(q, k) == [] { k := SomeAt(q, pc, n - 1); }
  }

  // While the others have flits in the buffers, one that holds an output VC does.
  lemma OneHasFlits(T: Topo, g: Routing, h: Hub, len: nat, rs: RouterState, st: InState) returns (k: VC)
    requires HubOk(T, g, h) && Crowd(T, h, len, T.nvc, rs.c, rs.pending, st) && Others(T, h, rs) > 0
    ensures Holds(T, h, k) && Q(rs.c, k) != []
  {
    var pc := if Row(T, rs, h.i) > Own(T, h, rs, h.i) then h.i else h.j;
    k := SomeOther(rs.c.q, pc, T.nvc, Last(T, h, pc).vc);
    assert Q(rs.c, k) != [];
    Known(T, h, len, T.nvc, rs.c, rs.pending, st, k);
  }

  // In one round the flit that waits at port w goes; each free place of a port is taken by the packet that waits
  // there, and if there is another, by one of the others.
  ghost predicate Moves(T: Topo, h: Hub, a: RouterState, b: RouterState, w: int, pc: int) {
    var gone := if w >= 0 && w == pc then 1 else 0;
    var n := if Row(T, a, pc) - gone < Cap(T) then 1 else 0;
    && Own(T, h, b, pc) == Own(T, h, a, pc) + n && Row(T, b, pc) <= Cap(T)
    && (Row(T, b, pc) > Row(T, a, pc) - gone + n || Row(T, b, pc) == Cap(T))
    && Row(T, b, pc) >= Row(T, a, pc) - gone + n
  }

  ghost predicate Advances(T: Topo, h: Hub, a: RouterState, b: RouterState, w: int) {
    && Moves(T, h, a, b, w, h.i) && Moves(T, h, a, b, w, h.j) && PortWaits(T, h, a.c, w)
    && (Others(T, h, a) - (if w >= 0 then 1 else 0) > 0 ==> !NoneWaiting(b.c))
  }

  // Between the turns of those that wait and the end of the cycle.
  ghost predicate Evening(T: Topo, g: Routing, vp: Policy, pp: Policy, h: Hub, len: nat, left: int, m: Moment,
                          st: InState) {
    && Play(T, g, vp, pp, h, len, m, T.nvc, st) && m.net.rs[h.r].ran == m.net.now && Unused(T, h, m)
    && (forall k {:trigger Pending(m.net.rs[h.r], k)} :: Pending(m.net.rs[h.r], k) != [] ==>
          (h.r, k) in m.turned && |Pending(m.net.rs[h.r], k)| > (if Holds(T, h, k) then left else left - 1))
  }

  lemma AfterNoon(T: Topo, g: Routing, vp: Policy, pp: Policy, h: Hub, len: nat, left: int, m: Moment, st: InState,
                  early: bool)
    returns (m1: Moment, m': Moment, w: int)
    requires HubOk(T, g, h) && Noon(T, g, vp, pp, h, len, left, m, st, early) && len > left >= 1
    ensures Evening(T, g, vp, pp, h, len, left, m', NextSt(T, st, early)) && Went(T, h, m, m1, w)
    ensures st.V? ==> BothTried(T, h, len, m1, m')
    ensures st.V? && Others(T, h, m1.net.rs[h.r]) > 0 ==> !NoneWaiting(m1.net.rs[h.r].c)
  {
    var st' := NextSt(T, st, early);
    m1, w := RunAtNoon(T, g, vp, pp, h, len, left, m, st, early);
    var a, b := m.net.rs[h.r], m1.net.rs[h.r];
    WentSame(T, g, h, len, left, m, m1, w, st);
    if st.V? && Others(T, h, b) > 0 { var k := OneHasFlits(T, g, h, len, b, st'); }
    m' := m1;
    if st'.V? { m' := BothTry(T, g, vp, pp, h, len, m1); }
    EveningComes(T, g, h, len, left, m, m1, m', st');
  }

  lemma CrossedStream(T: Topo, h: Hub, c: Ctl, w: int, c': Ctl, p: map<VC, seq<Flit>>, k: VC)
    requires PortWaits(T, h, c, w) && SameFlits(CrossedC(c, w), c')
    ensures Stream(c', p, k) == Stream(c, p, k)
  {
    assert Got(c', k) + Q(c', k) == Got(c, k) + Q(c, k);
  }

  // The packets and their numbers are as before.
  lemma WentSame(T: Topo, g: Routing, h: Hub, len: nat, left: int, m: Moment, m1: Moment, w: int, st: InState)
    requires HubOk(T, g, h) && Went(T, h, m, m1, w) && Unused(T, h, m) && Supplied(T, h, m.net.rs[h.r], left)
    ensures Unused(T, h, m1) && Supplied(T, h, m1.net.rs[h.r], left)
  {
    var a, b := m.net.rs[h.r], m1.net.rs[h.r];
    forall k ensures Stream(b.c, b.pending, k) == Stream(a.c, a.pending, k) && Pending(b, k) == Pending(a, k) {
      CrossedStream(T, h, a.c, w, b.c, a.pending, k);
    }
  }

  lemma EveningComes(T: Topo, g: Routing, h: Hub, len: nat, left: int, m: Moment, m1: Moment, m': Moment, st': InState)
    requires HubOk(T, g, h) && 0 <= h.r < |m.net.rs| && h.r < |m1.net.rs| && h.r < |m'.net.rs| && len > left
    requires Supplied(T, h, m1.net.rs[h.r], left) && m1.turned == m.turned
    requires forall k {:trigger (h.r, k) in m.turned} :: (h.r, k) in m.turned <==> Holds(T, h, k)
    requires Crowd(T, h, len, T.nvc, m1.net.rs[h.r].c, m1.net.rs[h.r].pending, st')
    requires if st'.V? then BothTried(T, h, len, m1, m') else m' == m1
    ensures forall k {:trigger Pending(m'.net.rs[h.r], k)} :: Pending(m'.net.rs[h.r], k) != [] ==>
              (h.r, k) in m'.turned && |Pending(m'.net.rs[h.r], k)| > (if Holds(T, h, k) then left else left - 1)
  {
    var b, c := m1.net.rs[h.r], m'.net.rs[h.r];
    forall k | Pending(c, k) != []
      ensures (h.r, k) in m'.turned && |Pending(c, k)| > (if Holds(T, h, k) then left else left - 1)
    {
      Known(T, h, len, T.nvc, b.c, b.pending, st', k);
      assert Stream(c.c, c.pending, k) != [];
      assert Stream(b.c, b.pending, k) != [] ==> |Pending(b, k)| > left;
      if Holds(T, h, k) { PeopleAre(T, g, h, k); }
    }
  }

  lemma DayEnds(T: Topo, g: Routing, vp: Policy, pp: Policy, h: Hub, len: nat, left: int, m: Moment, st: InState)
    returns (m1: Moment, m': Moment)
    requires HubOk(T, g, h) && Evening(T, g, vp, pp, h, len, left, m, st) && left >= 2 && len >= 1
    ensures m1.net.rs == m.net.rs && m1.start == m1.net && Play(T, g, vp, pp, h, len, m1, T.nvc, st) &&
            m1.used == m.used
    ensures Play(T, g, vp, pp, h, len, m', T.nvc, st) && SeatsTurned(T, h, len, m1, m', T.nvc)
    ensures m'.net.now == m.net.now + 1
  {
    m1 := Passes(T, g, vp, pp, h, len, m, st);
    forall k | Holds(T, h, k) ensures |Pending(m1.net.rs[h.r], k)| >= 2 {
      Known(T, h, len, T.nvc, m.net.rs[h.r].c, m.net.rs[h.r].pending, st, k);
      assert SeatNo(T, h, k) < T.nvc;
      assert Stream(m.net.rs[h.r].c, m.net.rs[h.r].pending, k) == Whole(T, h, len, k) != [];
    }
    m' := HoldersTurn(T, g, vp, pp, h, len, m1, st);
  }

  lemma NoonComes(T: Topo, g: Routing, vp: Policy, pp: Policy, h: Hub, len: nat, left: int, m: Moment, m1: Moment,
                  m': Moment, st: InState)
    requires HubOk(T, g, h) && Evening(T, g, vp, pp, h, len, left, m, st)
    requires m1.net.rs == m.net.rs && m1.start == m1.net && m1.used == m.used
    requires Play(T, g, vp, pp, h, len, m', T.nvc, st) && SeatsTurned(T, h, len, m1, m', T.nvc)
    requires m'.net.now == m.net.now + 1
    ensures Noon(T, g, vp, pp, h, len, left - 1, m', st, false)
  {
    var a, b := m.net.rs[h.r], m'.net.rs[h.r];
    AtLeast(T.nvc, T.depth);
    forall k
      ensures Stream(b.c, b.pending, k) != [] ==> |Pending(b, k)| > left - 1
      ensures Q(b.c, k) != [] ==> Here(m'.start.rs[h.r].c, k) != []
      ensures Stream(b.c, b.pending, k) == Stream(a.c, a.pending, k)
    {
      assert |Pending(b, k)| >= |Pending(a, k)| - (if 0 <= SeatNo(T, h, k) < T.nvc then 1 else 0);
      Known(T, h, len, T.nvc, a.c, a.pending, st, k);
    }
  }

  // One round.
  lemma Round(T: Topo, g: Routing, vp: Policy, pp: Policy, h: Hub, len: nat, left: int, m: Moment, st: InState,
              early: bool)
    returns (m': Moment, w: int)
    requires HubOk(T, g, h) && Noon(T, g, vp, pp, h, len, left, m, st, early) && len > left >= 2
    ensures Noon(T, g, vp, pp, h, len, left - 1, m', NextSt(T, st, early), false)
    ensures st.V? ==> Advances(T, h, m.net.rs[h.r], m'.net.rs[h.r], w)
  {
    var m1, m2, m3;
    m1, m2, w := AfterNoon(T, g, vp, pp, h, len, left, m, st, early);
    m3, m' := DayEnds(T, g, vp, pp, h, len, left, m2, NextSt(T, st, early));
    NoonComes(T, g, vp, pp, h, len, left, m2, m3, m', NextSt(T, st, early));
    if st.V? { HaveAdvanced(T, g, h, len, m, m1, m2, m3, m', w); }
  }

  lemma OneMoves(T: Topo, h: Hub, a: RouterState, b: RouterState, c: RouterState, d: RouterState, w: int, pc: int)
    requires Row(T, b, pc) == Row(T, a, pc) - (if w >= 0 && w == pc then 1 else 0) &&
             Own(T, h, b, pc) == Own(T, h, a, pc)
    requires Gained(T, h, b, c, pc) && Own(T, h, d, pc) == Own(T, h, c, pc) && Row(T, d, pc) <= Cap(T)
    requires Row(T, d, pc) >= Row(T, c, pc) && (Row(T, d, pc) > Row(T, c, pc) || Row(T, d, pc) >= Cap(T))
    ensures Moves(T, h, a, d, w, pc)
  {}

  lemma HaveAdvanced(T: Topo, g: Routing, h: Hub, len: nat, m: Moment, m1: Moment, m2: Moment, m3: Moment, m': Moment,
                     w: int)
    requires HubOk(T, g, h) && Went(T, h, m, m1, w) && h.r < |m2.net.rs| && BothTried(T, h, len, m1, m2)
    requires m3.net.rs == m2.net.rs && h.r < |m'.net.rs| && SeatsTurned(T, h, len, m3, m', T.nvc)
    requires Others(T, h, m1.net.rs[h.r]) > 0 ==> !NoneWaiting(m1.net.rs[h.r].c)
    requires Row(T, m'.net.rs[h.r], h.i) <= Cap(T) && Row(T, m'.net.rs[h.r], h.j) <= Cap(T)
    ensures Advances(T, h, m.net.rs[h.r], m'.net.rs[h.r], w)
  {
    var a, b, c, d := m.net.rs[h.r], m1.net.rs[h.r], m2.net.rs[h.r], m'.net.rs[h.r];
    WentRows(T, g, h, a, b, w);
    OwnSame(T, g, h, len, m3, m');
    OneMoves(T, h, a, b, c, d, w, h.i);
    OneMoves(T, h, a, b, c, d, w, h.j);
    SameWaiting(b.c, d.c);
  }

  lemma WentRows(T: Topo, g: Routing, h: Hub, a: RouterState, b: RouterState, w: int)
    requires HubOk(T, g, h) && PortWaits(T, h, a.c, w) && SameFlits(CrossedC(a.c, w), b.c)
    ensures Row(T, b, h.i) == Row(T, a, h.i) - (if w >= 0 && w == h.i then 1 else 0)
    ensures Row(T, b, h.j) == Row(T, a, h.j) - (if w >= 0 && w == h.j then 1 else 0)
    ensures Own(T, h, b, h.i) == Own(T, h, a, h.i) && Own(T, h, b, h.j) == Own(T, h, a, h.j)
    ensures Others(T, h, b) == Others(T, h, a) - (if w >= 0 then 1 else 0)
  {
    CrossedRows(T, g, h, a.c, w, b.c);
    assert Waiter(T, h, Last(T, h, h.i)) && Waiter(T, h, Last(T, h, h.j));
    assert RowQ(b.c.q, h.i, T.nvc) == RowQ(a.c.q, h.i, T.nvc) - (if w >= 0 && h.i == w then 1 else 0);
    assert RowQ(b.c.q, h.j, T.nvc) == RowQ(a.c.q, h.j, T.nvc) - (if w >= 0 && h.j == w then 1 else 0);
  }

  lemma OwnSame(T: Topo, g: Routing, h: Hub, len: nat, m: Moment, m': Moment)
    requires HubOk(T, g, h) && 0 <= h.r < |m.net.rs| && h.r < |m'.net.rs| && SeatsTurned(T, h, len, m, m', T.nvc)
    ensures Own(T, h, m'.net.rs[h.r], h.i) == Own(T, h, m.net.rs[h.r], h.i)
    ensures Own(T, h, m'.net.rs[h.r], h.j) == Own(T, h, m.net.rs[h.r], h.j)
  {
    PeopleAre(T, g, h, Last(T, h, h.i));
    PeopleAre(T, g, h, Last(T, h, h.j));
  }

  // ---------- the end ----------

  // First the buffers fill; then every flit that leaves is replaced by one of a packet that waits. For a port:
  // the flits in the buffer and of them those of the packet that waits; and whether one waits in the crossbar.
  function ToilOf(cap: int, xi: int, yi: int, xj: int, yj: int, w: bool): int {
    if 2 * cap - xi - xj > 0 then 6 * cap + 1 - xi - xj
    else 2 * (xi - yi + xj - yj) - (if w then 1 else 0)
  }

  ghost function Toil(T: Topo, h: Hub, rs: RouterState): int {
    ToilOf(Cap(T), Row(T, rs, h.i), Own(T, h, rs, h.i), Row(T, rs, h.j), Own(T, h, rs, h.j), !NoneWaiting(rs.c))
  }

  lemma {:induction false} RowHas(q: map<VC, seq<Flit>>, pc: int, n: nat, v: nat)
    requires v < n
    ensures RowQ(q, pc, n) >= |Queue(q, VC(pc, v))|
  {
    if v < n - 1 { RowHas(q, pc, n - 1, v); }
  }

  lemma {:induction false} RowHasTwo(q: map<VC, seq<Flit>>, pc: int, n: nat, v: nat, w: nat)
    requires v < n && w < n && v != w
    ensures RowQ(q, pc, n) >= |Queue(q, VC(pc, v))| + |Queue(q, VC(pc, w))|
  {
    if v == n - 1 {
      RowHas(q, pc, n - 1, w);
    } else if w == n - 1 {
      RowHas(q, pc, n - 1, v);
    } else {
      RowHasTwo(q, pc, n - 1, v, w);
    }
  }

  lemma OwnFits(T: Topo, g: Routing, h: Hub, rs: RouterState)
    requires HubOk(T, g, h)
    ensures Own(T, h, rs, h.i) <= Row(T, rs, h.i) && Own(T, h, rs, h.j) <= Row(T, rs, h.j)
  {
    RowHas(rs.c.q, h.i, T.nvc, T.nvc - 1);
    RowHas(rs.c.q, h.j, T.nvc, 1);
  }

  // A flit in front of an input VC that holds an output VC counts among the others.
  lemma HolderCounts(T: Topo, g: Routing, h: Hub, rs: RouterState, k: VC)
    requires HubOk(T, g, h) && Holds(T, h, k) && Q(rs.c, k) != []
    ensures Others(T, h, rs) > 0
  {
    PeopleAre(T, g, h, k);
    OwnFits(T, g, h, rs);
    RowHasTwo(rs.c.q, k.pc, T.nvc, k.vc, Last(T, h, k.pc).vc);
  }

  lemma WaitCounts(T: Topo, g: Routing, h: Hub, rs: RouterState, w: int)
    requires HubOk(T, g, h) && PortWaits(T, h, rs.c, w)
    ensures w >= 0 <==> !NoneWaiting(rs.c)
    ensures w >= 0 ==> Others(T, h, rs) > 0
  {
    if w >= 0 {
      var k := VC(w, Waiting(rs.c, w));
      HolderCounts(T, g, h, rs, k);
      PeopleAre(T, g, h, k);
      assert Waiting(rs.c, w) == k.vc != INVALID_VC;
    }
  }

  lemma MovesPort(T: Topo, h: Hub, a: RouterState, b: RouterState, w: int, pc: int)
    requires Moves(T, h, a, b, w, pc) && pc >= 0
    ensures PortMoves(Cap(T), Row(T, a, pc), Own(T, h, a, pc), Row(T, b, pc), Own(T, h, b, pc),
                      if w == pc then 1 else 0)
  {}

  lemma ToilFalls(T: Topo, g: Routing, h: Hub, a: RouterState, b: RouterState, w: int, w': int)
    requires HubOk(T, g, h) && Advances(T, h, a, b, w) && Toil(T, h, a) > 0 && PortWaits(T, h, b.c, w')
    requires Row(T, a, h.i) <= Cap(T) && Row(T, a, h.j) <= Cap(T)
    ensures 0 <= Toil(T, h, b) < Toil(T, h, a)
  {
    OwnFits(T, g, h, a);
    OwnFits(T, g, h, b);
    WaitCounts(T, g, h, a, w);
    WaitCounts(T, g, h, b, w');
    AtLeast(T.nvc, T.depth);
    MovesPort(T, h, a, b, w, h.i);
    MovesPort(T, h, a, b, w, h.j);
    Arithmetic(Cap(T), Row(T, a, h.i), Own(T, h, a, h.i), Row(T, b, h.i), Own(T, h, b, h.i), if w == h.i then 1 else 0,
               Row(T, a, h.j), Own(T, h, a, h.j), Row(T, b, h.j), Own(T, h, b, h.j), if w == h.j then 1 else 0,
               !NoneWaiting(a.c), !NoneWaiting(b.c));
  }

  lemma Arithmetic(cap: int, xi: int, yi: int, xi': int, yi': int, di: int, xj: int, yj: int, xj': int, yj': int,
                   dj: int, w: bool, w': bool)
    requires cap >= 1
    requires 0 <= xi <= cap && 0 <= xj <= cap && 0 <= yi <= xi && 0 <= yj <= xj && 0 <= yi' <= xi' && 0 <= yj' <= xj'
    requires 0 <= di && 0 <= dj && di + dj == (if w then 1 else 0) && (w ==> xi - yi + xj - yj > 0)
    requires PortMoves(cap, xi, yi, xi', yi', di) && PortMoves(cap, xj, yj, xj', yj', dj)
    requires xi - yi + xj - yj - di - dj > 0 ==> w'
    requires w' ==> xi' - yi' + xj' - yj' > 0
    ensures ToilOf(cap, xi, yi, xj, yj, w) > 0 ==>
              0 <= ToilOf(cap, xi', yi', xj', yj', w') < ToilOf(cap, xi, yi, xj, yj, w)
  {}

  predicate PortMoves(cap: int, x: int, y: int, x': int, y': int, d: int) {
    var n := if x - d < cap then 1 else 0;
    y' == y + n && x' <= cap && (x' > x - d + n || x' == cap)
  }

  lemma SomePort(T: Topo, g: Routing, vp: Policy, pp: Policy, h: Hub, len: nat, m: Moment, st: InState) returns (w: int)
    requires HubOk(T, g, h) && Play(T, g, vp, pp, h, len, m, T.nvc, st)
    ensures PortWaits(T, h, m.net.rs[h.r].c, w)
  {
    ComesLawful(T, g, vp, pp, m);
    LawfulGood(T, g, m.net);
    assert Control(T, h.r, m.net.rs[h.r].c);
    w := WaitingPort(T, g, h, len, m.net.rs[h.r].c, m.net.rs[h.r].pending, st);
  }

  lemma RoundFalls(T: Topo, g: Routing, vp: Policy, pp: Policy, h: Hub, len: nat, left: int, m: Moment)
    returns (m': Moment)
    requires HubOk(T, g, h) && Noon(T, g, vp, pp, h, len, left, m, V, false) && len > left >= 2
    requires Toil(T, h, m.net.rs[h.r]) > 0
    ensures Noon(T, g, vp, pp, h, len, left - 1, m', V, false)
    ensures 0 <= Toil(T, h, m'.net.rs[h.r]) < Toil(T, h, m.net.rs[h.r])
  {
    var w;
    m', w := Round(T, g, vp, pp, h, len, left, m, V, false);
    var w' := SomePort(T, g, vp, pp, h, len, m', V);
    ToilFalls(T, g, h, m.net.rs[h.r], m'.net.rs[h.r], w, w');
  }

  lemma {:induction false} Wears(T: Topo, g: Routing, vp: Policy, pp: Policy, h: Hub, len: nat, left: int, m: Moment)
    returns (m': Moment, left': int)
    requires HubOk(T, g, h) && Noon(T, g, vp, pp, h, len, left, m, V, false) && len > left
    requires left >= Toil(T, h, m.net.rs[h.r]) + 2 && Toil(T, h, m.net.rs[h.r]) >= 0
    ensures Noon(T, g, vp, pp, h, len, left', m', V, false) && Toil(T, h, m'.net.rs[h.r]) == 0
    decreases Toil(T, h, m.net.rs[h.r])
  {
    m', left' := m, left;
    if Toil(T, h, m.net.rs[h.r]) > 0 {
      var m1 := RoundFalls(T, g, vp, pp, h, len, left, m);
      m', left' := Wears(T, g, vp, pp, h, len, left - 1, m1);
    }
  }

  // Only those that wait have flits in the router; they have been routed, and fill the buffers.
  ghost predicate Jammed(T: Topo, h: Hub, rs: RouterState) {
    && Others(T, h, rs) == 0 && Row(T, rs, h.i) == Cap(T) && Row(T, rs, h.j) == Cap(T) && AllAsk(T, h, rs.c)
    && NoneWaiting(rs.c)
  }

  lemma Jams(T: Topo, g: Routing, vp: Policy, pp: Policy, h: Hub, len: nat, left: int, m: Moment) returns (m': Moment)
    requires HubOk(T, g, h) && Noon(T, g, vp, pp, h, len, left, m, V, false) && Toil(T, h, m.net.rs[h.r]) == 0
    ensures Play(T, g, vp, pp, h, len, m', T.nvc, V) && Jammed(T, h, m'.net.rs[h.r])
  {
    var w;
    m', w := RunAtNoon(T, g, vp, pp, h, len, left, m, V, false);
    var a, b := m.net.rs[h.r], m'.net.rs[h.r];
    OwnFits(T, g, h, a);
    WaitCounts(T, g, h, a, w);
    WentRows(T, g, h, a, b, w);
    var w' := SomePort(T, g, vp, pp, h, len, m', V);
    WaitCounts(T, g, h, b, w');
  }

  lemma NoneMoves(T: Topo, g: Routing, h: Hub, len: nat, s: Net, k: VC)
    requires HubOk(T, g, h) && OthersNew(s, h.r) && Jammed(T, h, s.rs[h.r])
    requires Crowd(T, h, len, T.nvc, s.rs[h.r].c, s.rs[h.r].pending, V)
    ensures !Movable(T, g, s, h.r, k)
  {
    var rs := s.rs[h.r];
    Known(T, h, len, T.nvc, rs.c, rs.pending, V, k);
    if Holds(T, h, k) && Q(rs.c, k) != [] { HolderCounts(T, g, h, rs, k); }
    if Waiter(T, h, k) && Q(rs.c, k) != [] {
      assert In(rs.c, k).st.R?;
      assert AllBusy(T, rs.c, h.e);
    }
  }

  lemma NoneWrites(T: Topo, g: Routing, h: Hub, len: nat, s: Net, k: VC)
    requires HubOk(T, g, h) && OthersNew(s, h.r) && Jammed(T, h, s.rs[h.r])
    requires Crowd(T, h, len, T.nvc, s.rs[h.r].c, s.rs[h.r].pending, V)
    ensures !Writable(T, s, h.r, k)
  {
    var rs := s.rs[h.r];
    Known(T, h, len, T.nvc, rs.c, rs.pending, V, k);
    FullIs(T, rs.c, k);
    if Holds(T, h, k) || Waiter(T, h, k) { PeopleAre(T, g, h, k); }
  }

  lemma Standstill(T: Topo, g: Routing, h: Hub, len: nat, s: Net)
    requires HubOk(T, g, h) && OthersNew(s, h.r) && Still(s.rs[h.r]) && Jammed(T, h, s.rs[h.r])
    requires Crowd(T, h, len, T.nvc, s.rs[h.r].c, s.rs[h.r].pending, V)
    ensures Quiet(s) && !GoesOn(T, g, s)
  {
    forall z, k ensures !Movable(T, g, s, z, k) && !Writable(T, s, z, k) {
      if z == h.r {
        NoneMoves(T, g, h, len, s, k);
        NoneWrites(T, g, h, len, s, k);
      } else if 0 <= z < |s.rs| {
        assert s.rs[z] == NEW_ROUTER;
      }
    }
  }

  // ---------- the beginning ----------

  // How full the ports are when n packets have been begun.
  ghost predicate OpenRows(T: Topo, h: Hub, len: nat, rs: RouterState, n: nat) {
    && Row(T, rs, h.i) == (if n < T.nvc then n else T.nvc - 1) && Row(T, rs, h.j) == (if n < T.nvc then 0 else 1)
    && (forall k {:trigger Pending(rs, k)} :: Stream(rs.c, rs.pending, k) != [] ==> |Pending(rs, k)| >= len - 1)
  }

  // In the first cycle the packets of the first n seats have been begun.
  ghost predicate Opened(T: Topo, g: Routing, vp: Policy, pp: Policy, h: Hub, len: nat, m: Moment, n: nat) {
    && Play(T, g, vp, pp, h, len, m, n, I) && m.start == Init(T) && m.net.rs[h.r].ran < m.net.now
    && (forall k {:trigger (h.r, k) in m.turned} :: (h.r, k) in m.turned <==> 0 <= SeatNo(T, h, k) < n)
    && (forall p {:trigger p in m.used} :: p in m.used ==> p < n)
    && OpenRows(T, h, len, m.net.rs[h.r], n)
  }

  lemma {:induction false} NewRow(pc: int, n: nat)
    ensures RowQ(map[], pc, n) == 0
  {
    if n > 0 { NewRow(pc, n - 1); }
  }

  lemma NewCrowd(T: Topo, g: Routing, h: Hub, len: nat)
    requires HubOk(T, g, h)
    ensures Crowd(T, h, len, 0, NEW_CTL, map[], I) && Still(NEW_ROUTER)
    ensures Row(T, NEW_ROUTER, h.i) == 0 && Row(T, NEW_ROUTER, h.j) == 0
    ensures forall k :: Stream(NEW_CTL, map[], k) == []
  {
    NewRow(h.i, T.nvc);
    NewRow(h.j, T.nvc);
    forall k
      ensures Told(T, h, len, 0, NEW_CTL, map[], k) && PlacedAt(T, h, NEW_CTL, I, k)
      ensures Stream(NEW_CTL, map[], k) == [] {}
    assert NoneWaiting(NEW_CTL);
  }

  lemma FirstComes(T: Topo, g: Routing, vp: Policy, pp: Policy)
    requires T.Valid()
    ensures Comes(T, g, vp, pp, FirstMoment(T, vp, pp)) && Timed(T, FirstMoment(T, vp, pp))
  {
    assert TimedRun(T, g, FirstMoment(T, vp, pp), [], FirstMoment(T, vp, pp));
    FirstTimed(T, vp, pp);
  }

  lemma OpensEmpty(T: Topo, g: Routing, vp: Policy, pp: Policy, h: Hub, len: nat)
    requires HubOk(T, g, h)
    ensures Opened(T, g, vp, pp, h, len, FirstMoment(T, vp, pp), 0)
  {
    FirstComes(T, g, vp, pp);
    NewCrowd(T, g, h, len);
    assert Init(T).rs[h.r] == NEW_ROUTER;
  }

  lemma MayOpen(T: Topo, g: Routing, vp: Policy, pp: Policy, h: Hub, len: nat, m: Moment, n: nat)
    requires HubOk(T, g, h) && Opened(T, g, vp, pp, h, len, m, n) && n < T.nvc && len >= 2
    ensures var k := Seat(T, h, n);
            && Holds(T, h, k) && (h.r, k) !in m.turned && Stream(m.net.rs[h.r].c, m.net.rs[h.r].pending, k) == []
            && !IsFull(T, m.net.rs[h.r].c, k) && Number(T, h, k) == n && n !in m.used
  {
    var k := Seat(T, h, n);
    SeatIs(T, g, h, n);
    PeopleAre(T, g, h, k);
    Known(T, h, len, n, m.net.rs[h.r].c, m.net.rs[h.r].pending, I, k);
    FullIs(T, m.net.rs[h.r].c, k);
    AtLeastOnce(T.nvc, T.depth);
  }

  lemma AtLeastOnce(n: nat, x: nat)
    requires x >= 1
    ensures n * x >= n
  {}

  lemma OpenRowsNext(T: Topo, g: Routing, h: Hub, len: nat, a: RouterState, b: RouterState, n: nat)
    requires HubOk(T, g, h) && n < T.nvc && OpenRows(T, h, len, a, n) && Goes(T, h, len, a, b, Seat(T, h, n))
    requires Stream(a.c, a.pending, Seat(T, h, n)) == [] &&
             Stream(b.c, b.pending, Seat(T, h, n)) == Whole(T, h, len, Seat(T, h, n))
    requires !IsFull(T, a.c, Seat(T, h, n)) && len >= 1
    ensures OpenRows(T, h, len, b, n + 1)
  {
    var k := Seat(T, h, n);
    assert Row(T, b, h.i) == Row(T, a, h.i) + (if h.i == k.pc then 1 else 0);
    assert Row(T, b, h.j) == Row(T, a, h.j) + (if h.j == k.pc then 1 else 0);
    forall k' | Stream(b.c, b.pending, k') != [] ensures |Pending(b, k')| >= len - 1 {
      if k' != k { assert Q(b.c, k') == Q(a.c, k') && Pending(b, k') == Pending(a, k'); }
    }
  }

  lemma OpensNext(T: Topo, g: Routing, vp: Policy, pp: Policy, h: Hub, len: nat, m: Moment, n: nat) returns (m': Moment)
    requires HubOk(T, g, h) && Play(T, g, vp, pp, h, len, m, n, I) && n < T.nvc && len >= 2
    requires var k := Seat(T, h, n);
             && Holds(T, h, k) && (h.r, k) !in m.turned && Stream(m.net.rs[h.r].c, m.net.rs[h.r].pending, k) == []
             && !IsFull(T, m.net.rs[h.r].c, k) && Number(T, h, k) !in m.used
    ensures Play(T, g, vp, pp, h, len, m', n + 1, I) && Acted(T, h, len, m, m', Seat(T, h, n))
    ensures m'.used == m.used + {Number(T, h, Seat(T, h, n))}
    ensures Stream(m'.net.rs[h.r].c, m'.net.rs[h.r].pending, Seat(T, h, n)) == Whole(T, h, len, Seat(T, h, n))
  {
    var k := Seat(T, h, n);
    SeatIs(T, g, h, n);
    m' := StartActs(T, g, h, len, m, k);
    ComesNext(T, g, vp, pp, m, Beginning(T, h, len, k));
    ActedPlay(T, g, vp, pp, h, len, m, m', n, I, k, n + 1);
  }

  lemma OpensOne(T: Topo, g: Routing, vp: Policy, pp: Policy, h: Hub, len: nat, m: Moment, n: nat) returns (m': Moment)
    requires HubOk(T, g, h) && Opened(T, g, vp, pp, h, len, m, n) && n < T.nvc && len >= 2
    ensures Opened(T, g, vp, pp, h, len, m', n + 1)
  {
    SeatIs(T, g, h, n);
    MayOpen(T, g, vp, pp, h, len, m, n);
    m' := OpensNext(T, g, vp, pp, h, len, m, n);
    OpenRowsNext(T, g, h, len, m.net.rs[h.r], m'.net.rs[h.r], n);
  }

  ghost predicate SomeOpened(T: Topo, g: Routing, vp: Policy, pp: Policy, h: Hub, len: nat, n: nat) {
    exists m :: Opened(T, g, vp, pp, h, len, m, n)
  }

  lemma OneMoreOpened(T: Topo, g: Routing, vp: Policy, pp: Policy, h: Hub, len: nat, n: nat)
    requires HubOk(T, g, h) && n < T.nvc && len >= 2 && SomeOpened(T, g, vp, pp, h, len, n)
    ensures SomeOpened(T, g, vp, pp, h, len, n + 1)
  {
    var m :| Opened(T, g, vp, pp, h, len, m, n);
    var m' := OpensOne(T, g, vp, pp, h, len, m, n);
  }

  lemma AllOpened(T: Topo, g: Routing, vp: Policy, pp: Policy, h: Hub, len: nat)
    requires HubOk(T, g, h) && len >= 2 && SomeOpened(T, g, vp, pp, h, len, 0)
    ensures SomeOpened(T, g, vp, pp, h, len, T.nvc)
  {
    var p := (n: nat) => SomeOpened(T, g, vp, pp, h, len, n);
    forall n: nat | n < T.nvc ensures Onward(p, n) {
      if p(n) { OneMoreOpened(T, g, vp, pp, h, len, n); }
    }
    Climb(p, T.nvc);
  }

  lemma Opens(T: Topo, g: Routing, vp: Policy, pp: Policy, h: Hub, len: nat) returns (m: Moment)
    requires HubOk(T, g, h) && len >= 2
    ensures Opened(T, g, vp, pp, h, len, m, T.nvc)
  {
    OpensEmpty(T, g, vp, pp, h, len);
    AllOpened(T, g, vp, pp, h, len);
    m :| Opened(T, g, vp, pp, h, len, m, T.nvc);
  }

  lemma FirstNoon(T: Topo, g: Routing, vp: Policy, pp: Policy, h: Hub, len: nat, m: Moment)
    requires HubOk(T, g, h) && Opened(T, g, vp, pp, h, len, m, T.nvc) && len >= 2
    ensures Noon(T, g, vp, pp, h, len, len - 2, m, I, true)
  {
    forall k ensures SeatNo(T, h, k) < T.nvc && (Waiter(T, h, k) && !Holds(T, h, k) ==> Number(T, h, k) >= T.nvc) {}
    forall k | Waiter(T, h, k) ensures Number(T, h, k) !in m.used { PeopleAre(T, g, h, k); }
    assert m.start.rs[h.r] == NEW_ROUTER;
  }

  lemma NoonAtFirst(T: Topo, g: Routing, vp: Policy, pp: Policy, h: Hub, len: nat) returns (m: Moment)
    requires HubOk(T, g, h) && len >= 2
    ensures Noon(T, g, vp, pp, h, len, len - 2, m, I, true)
  {
    m := Opens(T, g, vp, pp, h, len);
    FirstNoon(T, g, vp, pp, h, len, m);
  }

  // All output VCs are held after two or three rounds.
  lemma AllHeld(T: Topo, g: Routing, vp: Policy, pp: Policy, h: Hub, len: nat) returns (m: Moment, left: int)
    requires HubOk(T, g, h) && len >= 10
    ensures Noon(T, g, vp, pp, h, len, left, m, V, false) && left >= len - 5 && len > left
  {
    var m0 := NoonAtFirst(T, g, vp, pp, h, len);
    var m1, w1 := Round(T, g, vp, pp, h, len, len - 2, m0, I, true);
    var m2, w2 := Round(T, g, vp, pp, h, len, len - 3, m1, I, false);
    m, left := m2, len - 4;
    if !T.lookahead {
      var w3;
      m, w3 := Round(T, g, vp, pp, h, len, len - 4, m2, R, false);
      left := len - 5;
    }
  }

  lemma ToilBound(T: Topo, g: Routing, h: Hub, rs: RouterState, w: int)
    requires HubOk(T, g, h) && PortWaits(T, h, rs.c, w) && Row(T, rs, h.i) <= Cap(T) && Row(T, rs, h.j) <= Cap(T)
    ensures 0 <= Toil(T, h, rs) <= 6 * Cap(T) + 1
  {
    OwnFits(T, g, h, rs);
    WaitCounts(T, g, h, rs, w);
  }

  lemma AllJammed(T: Topo, g: Routing, vp: Policy, pp: Policy, h: Hub, len: nat) returns (m: Moment)
    requires HubOk(T, g, h) && len == 6 * Cap(T) + 10
    ensures Play(T, g, vp, pp, h, len, m, T.nvc, V) && Jammed(T, h, m.net.rs[h.r])
  {
    var m1, left := AllHeld(T, g, vp, pp, h, len);
    var w := SomePort(T, g, vp, pp, h, len, m1, V);
    ToilBound(T, g, h, m1.net.rs[h.r], w);
    var m2, left' := Wears(T, g, vp, pp, h, len, left, m1);
    m := Jams(T, g, vp, pp, h, len, left', m2);
  }

  lemma JamHasFlits(T: Topo, g: Routing, h: Hub, rs: RouterState)
    requires HubOk(T, g, h) && Jammed(T, h, rs)
    ensures Q(rs.c, VC(h.i, T.nvc - 1)) != []
  {
    OwnFits(T, g, h, rs);
    AtLeast(T.nvc, T.depth);
    assert Own(T, h, rs, h.i) == Cap(T);
  }

  // With shared buffers and a process for each VC the program comes to a standstill, with flits in its buffers,
  // wherever a router has two network interfaces, whatever the policies of its arbiters.
  lemma ComesToStandstill(T: Topo, g: Routing, vp: Policy, pp: Policy, h: Hub) returns (m: Moment)
    requires HubOk(T, g, h)
    ensures Comes(T, g, vp, pp, m) && 0 <= h.r < |m.net.rs| && Quiet(m.net) && !GoesOn(T, g, m.net)
    ensures T.ValidVC(h.r, VC(h.i, T.nvc - 1)) && Q(m.net.rs[h.r].c, VC(h.i, T.nvc - 1)) != []
  {
    var len := 6 * Cap(T) + 10;
    m := AllJammed(T, g, vp, pp, h, len);
    Standstill(T, g, h, len, m.net);
    JamHasFlits(T, g, h, m.net.rs[h.r]);
  }

  // So the exact condition is that the VCs of a port do not share a buffer, or that there is only one of them,
  // or that one process writes one packet after the other.
  lemma GoesOnIff(T: Topo, g: Routing, rank: (int, VC) -> nat, top: nat, h: Hub, vp: Policy, pp: Policy)
    requires Closed(T, g) && Ranked(T, g, rank, top) && Entered(T, g) && Progress.Admitting(T, g) && Covered(T)
    requires Local(T, g, h) && T.nvc >= 1
    ensures AlwaysGoesOn(T, g) <==> Guarded(T, g.single)
    ensures Guarded(T, g.single) <==> TimedGoesOn(T, g, vp, pp)
  {
    if Guarded(T, g.single) {
      NeverStuck(T, g, rank, top);
      LawfulGoesOn(T, g, vp, pp);
    } else {
      var m := ComesToStandstill(T, g, vp, pp, h);
      ComesLawful(T, g, vp, pp, m);
    }
  }

  // At every moment the program comes to with flits in its buffers, something is under way or can move.
  ghost predicate TimedGoesOn(T: Topo, g: Routing, vp: Policy, pp: Policy) {
    forall m, r, k {:trigger Comes(T, g, vp, pp, m), T.ValidVC(r, k)} ::
      Comes(T, g, vp, pp, m) && 0 <= r < |m.net.rs| && T.ValidVC(r, k) && Q(m.net.rs[r].c, k) != [] ==>
        !Quiet(m.net) || GoesOn(T, g, m.net)
  }

  lemma LawfulGoesOn(T: Topo, g: Routing, vp: Policy, pp: Policy)
    requires AlwaysGoesOn(T, g)
    ensures TimedGoesOn(T, g, vp, pp)
  {
    forall m, r, k | Comes(T, g, vp, pp, m) && 0 <= r < |m.net.rs| && T.ValidVC(r, k) && Q(m.net.rs[r].c, k) != []
      ensures !Quiet(m.net) || GoesOn(T, g, m.net)
    {
      ComesLawful(T, g, vp, pp, m);
    }
  }
}
