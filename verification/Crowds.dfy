// A router whose injection ports packets crowd: those that hold the output VCs of an ejection port and those that
// wait for one, and what one call of router_sim does to them, with the choices the program makes.

module Crowds {
  import opened Wiring
  import opened Flits
  import opened Protocol
  import opened Invariant
  import opened ControlProofs
  import opened StepProofs
  import opened Stages
  import opened StageProofs
  import opened Runs
  import opened Changes
  import opened Priorities
  import opened Arbiter
  import opened SwArb
  import opened Folds
  import opened Timing

  // Two injection ports of a router and one of its ejection ports.
  datatype Hub = Hub(r: int, i: int, j: int, e: int)

  // Packets that enter there may leave there at once.
  ghost predicate Local(T: Topo, g: Routing, h: Hub) {
    && T.Valid() && h.i != h.j && T.IsEject(h.r, h.i) && T.IsEject(h.r, h.j) && T.IsEject(h.r, h.e)
    && 0 <= h.i < T.npc[h.r] && 0 <= h.j < T.npc[h.r] && 0 <= h.e < T.npc[h.r]
    && (forall k: VC, p {:trigger g.may(h.r, k, p)} :: T.ValidVC(h.r, k) && (k.pc == h.i || k.pc == h.j) ==>
          g.may(h.r, k, p) && MaySend(T, g, h.r, k, p, h.e))
  }

  // The VCs of a port share its buffer, and each has a process of its own that writes into it.
  ghost predicate HubOk(T: Topo, g: Routing, h: Hub) {
    T.damq && T.nvc >= 2 && T.depth >= 1 && !g.single && Local(T, g, h)
  }

  // ---------- the packets ----------

  // The n-th of the input VCs whose packets come to hold an output VC, and its number.
  function Seat(T: Topo, h: Hub, n: int): VC { if n < T.nvc - 1 then VC(h.i, n) else VC(h.j, 0) }

  function SeatNo(T: Topo, h: Hub, k: VC): int {
    if k.pc == h.i && 0 <= k.vc < T.nvc - 1 then k.vc else if k == VC(h.j, 0) then T.nvc - 1 else -1
  }

  predicate Holds(T: Topo, h: Hub, k: VC) { SeatNo(T, h, k) >= 0 }

  // The VC on either port whose packet waits in vain.
  function Last(T: Topo, h: Hub, port: int): VC { if port == h.i then VC(h.i, T.nvc - 1) else VC(h.j, 1) }

  predicate Waiter(T: Topo, h: Hub, k: VC) { k == Last(T, h, h.i) || k == Last(T, h, h.j) }

  function Number(T: Topo, h: Hub, k: VC): nat {
    if Holds(T, h, k) then SeatNo(T, h, k) else if k == Last(T, h, h.i) then T.nvc else T.nvc + 1
  }

  lemma SeatIs(T: Topo, g: Routing, h: Hub, n: nat)
    requires HubOk(T, g, h) && n < T.nvc
    ensures SeatNo(T, h, Seat(T, h, n)) == n && forall k :: SeatNo(T, h, k) == n <==> k == Seat(T, h, n)
  {}

  lemma PeopleAre(T: Topo, g: Routing, h: Hub, k: VC)
    requires HubOk(T, g, h) && (Holds(T, h, k) || Waiter(T, h, k))
    ensures T.ValidVC(h.r, k) && T.IsEject(h.r, k.pc) && (k.pc == h.i || k.pc == h.j)
    ensures Holds(T, h, k) ==> !Waiter(T, h, k)
    ensures forall p :: g.may(h.r, k, p) && MaySend(T, g, h.r, k, p, h.e)
    ensures forall k' :: (Holds(T, h, k') || Waiter(T, h, k')) && Number(T, h, k') == Number(T, h, k) ==> k' == k
  {}

  // A packet of len flits.
  function Whole(T: Topo, h: Hub, len: nat, k: VC): seq<Flit> {
    Cut(Number(T, h, k), Number(T, h, k) * len, len)
  }

  // What has been, is and will be in input VC k.
  function Stream(c: Ctl, p: map<VC, seq<Flit>>, k: VC): seq<Flit> { Got(c, k) + Q(c, k) + Queue(p, k) }

  // The packets of the first m seats have been begun, those that wait perhaps, and none has been written to its
  // end: its first flit has, and its last has not.
  ghost predicate Told(T: Topo, h: Hub, len: nat, m: int, c: Ctl, p: map<VC, seq<Flit>>, k: VC) {
    var s := Stream(c, p, k);
    && (if 0 <= SeatNo(T, h, k) < m then s == Whole(T, h, len, k)
        else if Waiter(T, h, k) then s == [] || s == Whole(T, h, len, k) else s == [])
    && (s != [] ==> Queue(p, k) != [] && Here(c, k) != [])
  }

  // A flit in front belongs to its packet and is not the last of it.
  lemma FrontFlit(T: Topo, h: Hub, len: nat, m: int, c: Ctl, p: map<VC, seq<Flit>>, k: VC)
    requires Told(T, h, len, m, c, p, k) && Q(c, k) != []
    ensures !Q(c, k)[0].IsTail() && (Q(c, k)[0].IsHead() <==> Got(c, k) == [])
    ensures Got(c, k) != [] ==> Mid(Got(c, k))
  {
    var w, n := Whole(T, h, len, k), |Got(c, k)|;
    assert w == Stream(c, p, k) && |w| == len;
    assert Q(c, k)[0] == w[n];
    if n > 0 { assert Got(c, k)[n - 1] == w[n - 1]; }
  }

  // ---------- the control state ----------

  // An input module in state st, V standing for V and S, bound for port e.
  predicate At(m: InMod, st: InState, e: int) {
    match st
    case I => m.st.I?
    case R => m.st.R? && m.outPc == e
    case _ => (m.st.V? || m.st.S?) && m.outPc == e
  }

  // Those that hold an output VC, or will, are in state st; the others wait in state R, or before.
  ghost predicate PlacedAt(T: Topo, h: Hub, c: Ctl, st: InState, k: VC) {
    if Holds(T, h, k) then At(In(c, k), st, h.e)
    else if Waiter(T, h, k) then At(In(c, k), I, h.e) || At(In(c, k), R, h.e)
    else In(c, k).st.I?
  }

  ghost predicate Placed(T: Topo, h: Hub, c: Ctl, st: InState) {
    forall k {:trigger In(c, k)} :: PlacedAt(T, h, c, st, k)
  }

  // Only one of those that hold an output VC waits in the crossbar, if any.
  ghost predicate Waits(T: Topo, h: Hub, c: Ctl) {
    NoneWaiting(c) || exists k :: Holds(T, h, k) && OneWaiting(c, k)
  }

  // Nobody waits yet while the output VCs are not held, and first there are flits for which to hold them.
  ghost predicate Crowd(T: Topo, h: Hub, len: nat, m: int, c: Ctl, p: map<VC, seq<Flit>>, st: InState) {
    && !st.S? && (forall k {:trigger Q(c, k)} :: Told(T, h, len, m, c, p, k))
    && Placed(T, h, c, st) && Waits(T, h, c)
    && (st.V? ==> AllBusy(T, c, h.e))
    && (!st.V? ==> forall k {:trigger Q(c, k)} :: Waiter(T, h, k) ==> Stream(c, p, k) == [])
    && (st.I? ==> forall k {:trigger Q(c, k)} :: 0 <= SeatNo(T, h, k) < m ==> Q(c, k) != [])
  }

  lemma Known(T: Topo, h: Hub, len: nat, m: int, c: Ctl, p: map<VC, seq<Flit>>, st: InState, k: VC)
    requires Crowd(T, h, len, m, c, p, st)
    ensures Told(T, h, len, m, c, p, k) && PlacedAt(T, h, c, st, k)
    ensures !st.V? && Waiter(T, h, k) ==> Stream(c, p, k) == []
    ensures st.I? && 0 <= SeatNo(T, h, k) < m ==> Q(c, k) != []
  {
    assert Placed(T, h, c, st);
    assert In(c, k) == In(c, k) && Q(c, k) == Q(c, k);
  }

  // ---------- the stages ----------

  // The flit that waits in the crossbar, if there is one, crosses.
  function CrossedC(c: Ctl, w: int): Ctl { if w >= 0 && Q(c, VC(w, Waiting(c, w))) != [] then Traverse(c, w) else c }

  // Input port w waits for the crossbar, or none if it is negative.
  ghost predicate PortWaits(T: Topo, h: Hub, c: Ctl, w: int) {
    if w < 0 then NoneWaiting(c)
    else
      var k := VC(w, Waiting(c, w));
      (w == h.i || w == h.j) && Holds(T, h, k) && OneWaiting(c, k) && Q(c, k) != [] && In(c, k).outPc == h.e
  }

  // The input port that waits.
  lemma WaitingPort(T: Topo, g: Routing, h: Hub, len: nat, c: Ctl, p: map<VC, seq<Flit>>, st: InState) returns (w: int)
    requires HubOk(T, g, h) && Control(T, h.r, c) && Crowd(T, h, len, T.nvc, c, p, st)
    ensures PortWaits(T, h, c, w) && (w >= 0 ==> st.V?)
  {
    w := -1;
    assert Waits(T, h, c);
    if k :| Holds(T, h, k) && OneWaiting(c, k) {
      PeopleAre(T, g, h, k);
      w := k.pc;
      assert Waiting(c, w) == k.vc;
      assert WaitOk(T, h.r, c, w) && InOk(T, h.r, c, k);
      Known(T, h, len, T.nvc, c, p, st, k);
    }
  }

  lemma CrossedCrowd(T: Topo, g: Routing, h: Hub, len: nat, c: Ctl, p: map<VC, seq<Flit>>, st: InState, w: int)
    requires HubOk(T, g, h) && Crowd(T, h, len, T.nvc, c, p, st)
    requires PortWaits(T, h, c, w) && (w >= 0 ==> st.V?)
    ensures Crowd(T, h, len, T.nvc, CrossedC(c, w), p, st) && NoneWaiting(CrossedC(c, w))
  {
    if w >= 0 {
      var k0 := VC(w, Waiting(c, w));
      Known(T, h, len, T.nvc, c, p, st, k0);
      FrontFlit(T, h, len, T.nvc, c, p, k0);
      NoneLeft(c, k0);
      TraverseCrowd(T, h, len, c, p, st, k0);
    }
  }

  lemma TraverseKeeps(c: Ctl, k0: VC, p: map<VC, seq<Flit>>, k: VC)
    requires Waiting(c, k0.pc) == k0.vc && Q(c, k0) != [] && !Q(c, k0)[0].IsTail()
    ensures var c1 := Traverse(c, k0.pc);
            Here(c1, k) == Here(c, k) && Stream(c1, p, k) == Stream(c, p, k) && In(c1, k) == In(c, k)
  {
    var c1 := Traverse(c, k0.pc);
    assert Got(c1, k) + Q(c1, k) == Got(c, k) + Q(c, k);
  }

  lemma TraverseCrowd(T: Topo, h: Hub, len: nat, c: Ctl, p: map<VC, seq<Flit>>, st: InState, k0: VC)
    requires st.V? && Crowd(T, h, len, T.nvc, c, p, st) && Waiting(c, k0.pc) == k0.vc
    requires Q(c, k0) != [] && !Q(c, k0)[0].IsTail() && NoneWaiting(Traverse(c, k0.pc))
    ensures Crowd(T, h, len, T.nvc, Traverse(c, k0.pc), p, st)
  {
    var c1 := Traverse(c, k0.pc);
    forall k ensures Told(T, h, len, T.nvc, c1, p, k) && PlacedAt(T, h, c1, st, k) {
      Known(T, h, len, T.nvc, c, p, st, k);
      TraverseKeeps(c, k0, p, k);
    }
    BusySame(T, c, c1, st, h.e);
  }

  lemma BusySame(T: Topo, c: Ctl, c': Ctl, st: InState, e: int)
    requires (st.V? ==> AllBusy(T, c, e)) && c.busy <= c'.busy
    ensures st.V? ==> AllBusy(T, c', e)
  {
    if st.V? { forall ov | 0 <= ov < T.nvc ensures VC(e, ov) in c'.busy { assert VC(e, ov) in c.busy; } }
  }

  // What the flits are does not change.
  ghost predicate SameFlits(c: Ctl, c': Ctl) { c'.q == c.q && c'.got == c.got }

  lemma SameCrowd(T: Topo, h: Hub, len: nat, m: int, c: Ctl, p: map<VC, seq<Flit>>, st: InState, c': Ctl, st': InState)
    requires Crowd(T, h, len, m, c, p, st) && SameFlits(c, c') && Placed(T, h, c', st') && Waits(T, h, c')
    requires (st'.V? ==> AllBusy(T, c', h.e)) && (st.V? ==> st'.V?) && !st'.S? && (st'.I? ==> st.I?)
    ensures Crowd(T, h, len, m, c', p, st')
  {
    forall k ensures Told(T, h, len, m, c', p, k) && Stream(c', p, k) == Stream(c, p, k) {
      Known(T, h, len, m, c, p, st, k);
    }
  }

  lemma WaitsSame(T: Topo, h: Hub, c: Ctl, c': Ctl)
    requires Waits(T, h, c) && c'.waiting == c.waiting
    ensures Waits(T, h, c')
  {
    if k :| Holds(T, h, k) && OneWaiting(c, k) {
      forall ip ensures Waiting(c', ip) == if ip == k.pc then k.vc else INVALID_VC {
        assert Waiting(c', ip) == Waiting(c, ip);
      }
      assert OneWaiting(c', k);
    } else {
      forall ip ensures Waiting(c', ip) == INVALID_VC { assert Waiting(c, ip) == INVALID_VC; }
    }
  }

  // All requests are for the ejection port, which is free once the flit has crossed.
  lemma AllForEject(T: Topo, g: Routing, h: Hub, len: nat, rs: RouterState, p: map<VC, seq<Flit>>, st: InState)
    requires HubOk(T, g, h) && Control(T, h.r, rs.c) && Crowd(T, h, len, T.nvc, rs.c, p, st) && NoneWaiting(rs.c)
    ensures AllFor(T, h.r, rs, h.e)
  {
    var c := rs.c;
    assert XOk(T, h.r, c, h.e);
    forall k | T.ValidVC(h.r, k) && k in c.sw ensures c.sw[k].outPc == h.e && Q(c, k) != [] {
      assert InOk(T, h.r, c, k);
      Known(T, h, len, T.nvc, c, p, st, k);
    }
  }

  // Whoever holds an output VC and has a flit asks for the switch.
  lemma HolderAsks(T: Topo, g: Routing, h: Hub, len: nat, c: Ctl, c': Ctl, p: map<VC, seq<Flit>>, k: VC)
    requires HubOk(T, g, h) && Control(T, h.r, c') && Crowd(T, h, len, T.nvc, c', p, V) && NoneWaiting(c')
    requires AskedAll(T, h.r, c, c') && Holds(T, h, k) && Q(c', k) != []
    ensures k in c'.sw
  {
    PeopleAre(T, g, h, k);
    Known(T, h, len, T.nvc, c', p, V, k);
    FrontFlit(T, h, len, T.nvc, c', p, k);
    assert InOk(T, h.r, c', k) && Waiting(c', k.pc) == INVALID_VC;
  }

  lemma GrantCrowd(T: Topo, g: Routing, h: Hub, len: nat, c: Ctl, p: map<VC, seq<Flit>>, st: InState, k: VC)
    requires HubOk(T, g, h) && Control(T, h.r, c) && Crowd(T, h, len, T.nvc, c, p, st) && NoneWaiting(c)
    requires T.ValidVC(h.r, k) && k in c.sw && Q(c, k) != []
    ensures st.V? && Crowd(T, h, len, T.nvc, Grant(c, k), p, st) && OneWaiting(Grant(c, k), k)
    ensures c.sw[k].outPc == h.e && (AllAsk(T, h, c) ==> AllAsk(T, h, Grant(c, k)))
  {
    var c' := Grant(c, k);
    assert InOk(T, h.r, c, k);
    Known(T, h, len, T.nvc, c, p, st, k);
    assert Holds(T, h, k);
    GrantWaits(c, k);
    forall k' ensures PlacedAt(T, h, c', st, k') && (AllAsk(T, h, c) && Waiter(T, h, k') ==> In(c', k') == In(c, k')) {
      Known(T, h, len, T.nvc, c, p, st, k');
      PeopleAre(T, g, h, k);
    }
    BusySame(T, c, c', st, h.e);
    SameCrowd(T, h, len, T.nvc, c, p, st, c', st);
  }

  lemma GrantWaits(c: Ctl, k: VC)
    requires k in c.sw && Q(c, k) != [] && NoneWaiting(c) && k.vc >= 0
    ensures OneWaiting(Grant(c, k), k)
  {
    var c' := Grant(c, k);
    forall ip ensures Waiting(c', ip) == if ip == k.pc then k.vc else INVALID_VC {
      assert Waiting(c, ip) == INVALID_VC;
    }
  }

  // ---------- routing and VC allocation ----------

  // Those that wait with a flit in front have been routed.
  ghost predicate AllAsk(T: Topo, h: Hub, c: Ctl) {
    forall k {:trigger In(c, k)} :: Waiter(T, h, k) && Q(c, k) != [] ==> In(c, k).st.R?
  }

  // All waiting head flits are sent to the ejection port, or none while they are in their first cycle.
  function To(e: int, early: bool): VC -> Option<int> { if early then NoRoute() else (_ => Some(e)) }
  function NoRoute(): VC -> Option<int> { _ => None }

  function AfterRC(st: InState, early: bool): InState { if st.I? && !early then R else st }
  function AfterVA(st: InState): InState { if st.R? then V else st }

  lemma RouteCrowd(T: Topo, g: Routing, h: Hub, len: nat, c: Ctl, c': Ctl, p: map<VC, seq<Flit>>, st: InState,
                   early: bool)
    requires HubOk(T, g, h) && Control(T, h.r, c) && Crowd(T, h, len, T.nvc, c, p, st)
    requires RoutedAll(T, h.r, c, c', To(h.e, early))
    ensures Crowd(T, h, len, T.nvc, c', p, AfterRC(st, early)) && (!early ==> AllAsk(T, h, c'))
  {
    forall k
      ensures PlacedAt(T, h, c', AfterRC(st, early), k)
      ensures !early && Waiter(T, h, k) && Q(c', k) != [] ==> In(c', k).st.R?
    {
      Known(T, h, len, T.nvc, c, p, st, k);
      if Waiter(T, h, k) && Q(c, k) != [] {
        PeopleAre(T, g, h, k);
        FrontFlit(T, h, len, T.nvc, c, p, k);
        assert InOk(T, h.r, c, k);
      }
      if Holds(T, h, k) && st.I? {
        PeopleAre(T, g, h, k);
        assert k == Seat(T, h, SeatNo(T, h, k));
        FrontFlit(T, h, len, T.nvc, c, p, k);
        assert InOk(T, h.r, c, k);
      }
    }
    WaitsSame(T, h, c, c');
    BusySame(T, c, c', st, h.e);
    SameCrowd(T, h, len, T.nvc, c, p, st, c', AfterRC(st, early));
  }

  // ---------- how many ask for an output VC ----------

  ghost predicate Distinct(ks: seq<VC>) {
    forall i, j {:trigger ks[i], ks[j]} :: 0 <= i < j < |ks| ==> ks[i] != ks[j]
  }

  lemma {:induction false} DistinctSize(ks: seq<VC>)
    requires Distinct(ks)
    ensures |set k | k in ks| == |ks|
  {
    if ks != [] {
      var n := |ks| - 1;
      DistinctSize(ks[..n]);
      assert ks[n] !in ks[..n];
      assert (set k | k in ks) == (set k | k in ks[..n]) + {ks[n]};
    } else {
      assert (set k | k in ks) == {};
    }
  }

  lemma SeatCount(T: Topo, g: Routing, h: Hub, ks: seq<VC>)
    requires HubOk(T, g, h) && Distinct(ks) && forall k :: k in ks <==> Holds(T, h, k)
    ensures |ks| == T.nvc
  {
    var seats := seq(T.nvc, n => Seat(T, h, n));
    forall i, j | 0 <= i < j < |seats| ensures seats[i] != seats[j] {
      SeatIs(T, g, h, i);
      SeatIs(T, g, h, j);
    }
    forall k ensures k in ks <==> k in seats {
      if Holds(T, h, k) { assert seats[SeatNo(T, h, k)] == k; }
      if n :| 0 <= n < |seats| && seats[n] == k { SeatIs(T, g, h, n); }
    }
    DistinctSize(ks);
    DistinctSize(seats);
    assert (set k | k in ks) == (set k | k in seats);
  }

  function Keys(q: seq<(VC, int)>): seq<VC> { seq(|q|, i requires 0 <= i < |q| => q[i].0) }

  // Nobody asks, or all who will hold an output VC do.
  lemma QueueIs(T: Topo, g: Routing, h: Hub, len: nat, c: Ctl, p: map<VC, seq<Flit>>, st: InState)
    requires HubOk(T, g, h) && Control(T, h.r, c) && Crowd(T, h, len, T.nvc, c, p, st)
    ensures QueueFor(c, h.e) && (st.I? ==> c.reqQ == []) && (st.R? ==> |c.reqQ| == T.nvc)
    ensures st.R? ==> forall k :: Holds(T, h, k) ==> InQueue(c, k)
  {
    forall i | 0 <= i < |c.reqQ| ensures c.reqQ[i].1 == h.e && !st.I? && (st.R? ==> Holds(T, h, c.reqQ[i].0)) {
      var k := c.reqQ[i].0;
      Known(T, h, len, T.nvc, c, p, st, k);
      assert InOk(T, h.r, c, k);
    }
    assert c.reqQ != [] ==> c.reqQ[0].1 == h.e;
    if st.R? {
      var ks := Keys(c.reqQ);
      forall k | Holds(T, h, k) ensures k in ks && InQueue(c, k) {
        Known(T, h, len, T.nvc, c, p, st, k);
        PeopleAre(T, g, h, k);
        assert InOk(T, h.r, c, k);
        var i :| 0 <= i < |c.reqQ| && c.reqQ[i] == (k, h.e);
        assert ks[i] == k;
      }
      SeatCount(T, g, h, ks);
    }
  }

  lemma NoneBusy(T: Topo, g: Routing, h: Hub, len: nat, c: Ctl, p: map<VC, seq<Flit>>, st: InState)
    requires HubOk(T, g, h) && Control(T, h.r, c) && Crowd(T, h, len, T.nvc, c, p, st) && !st.V?
    ensures BusyBelow(T, c, h.e, 0)
  {
    forall ov | 0 <= ov < T.nvc ensures VC(h.e, ov) !in c.busy {
      assert OutOk(T, h.r, c, VC(h.e, ov));
      if VC(h.e, ov) in c.owner { Known(T, h, len, T.nvc, c, p, st, c.owner[VC(h.e, ov)]); }
    }
  }

  lemma HouseCrowd(T: Topo, g: Routing, h: Hub, len: nat, c: Ctl, c': Ctl, p: map<VC, seq<Flit>>, st: InState, now: int)
    requires HubOk(T, g, h) && Control(T, h.r, c) && Crowd(T, h, len, T.nvc, c, p, st) && !st.V?
    requires HousedAll(c, c', h.e, 0, now) && BusyBelow(T, c', h.e, |c.reqQ|)
    ensures Crowd(T, h, len, T.nvc, c', p, AfterVA(st))
  {
    QueueIs(T, g, h, len, c, p, st);
    forall k ensures PlacedAt(T, h, c', AfterVA(st), k) {
      Known(T, h, len, T.nvc, c, p, st, k);
      if InQueue(c, k) {
        var i :| 0 <= i < |c.reqQ| && c.reqQ[i].0 == k;
        assert InOk(T, h.r, c, k);
      }
    }
    if st.R? { forall ov | 0 <= ov < T.nvc ensures VC(h.e, ov) in c'.busy {} }
    WaitsSame(T, h, c, c');
    SameCrowd(T, h, len, T.nvc, c, p, st, c', AfterVA(st));
  }

  // ---------- one call of router_sim, stage by stage ----------

  // The router in the middle of a call.
  ghost predicate Amid(T: Topo, h: Hub, len: nat, s: Net, st: InState) {
    Inv(T, s) && 0 <= h.r < |s.rs| && Crowd(T, h, len, T.nvc, s.rs[h.r].c, s.rs[h.r].pending, st)
  }

  ghost predicate Still(rs: RouterState) {
    rs.deps == [] && forall op {:trigger Link(rs.link, op)} :: Link(rs.link, op) == []
  }

  lemma CrossWithin(T: Topo, g: Routing, h: Hub, s: Net, w: int) returns (u: Net)
    requires HubOk(T, g, h) && Sized(T, s) && 0 <= h.r < |s.rs| && PortWaits(T, h, s.rs[h.r].c, w)
    ensures u == STUpto(T, s, h.r, T.npc[h.r]) && Within(s, u, h.r) && u.rs[h.r].c == CrossedC(s.rs[h.r].c, w)
  {
    var c := s.rs[h.r].c;
    if w < 0 {
      STNone(T, s, h.r, T.npc[h.r]);
      u := s;
    } else {
      NotFed(T, h.r, w);
      u := STLone(T, s, h.r, VC(w, Waiting(c, w)));
    }
  }

  lemma FrontMoves(T: Topo, g: Routing, h: Hub, s: Net, w: int) returns (u: Net)
    requires HubOk(T, g, h) && Sized(T, s) && 0 <= h.r < |s.rs| && Still(s.rs[h.r]) && PortWaits(T, h, s.rs[h.r].c, w)
    ensures u == Front(T, s, h.r) && Within(s, u, h.r) && AskedAll(T, h.r, CrossedC(s.rs[h.r].c, w), u.rs[h.r].c)
  {
    var r := h.r;
    assert IncAll(T, s, r) == s;
    LTRuns(T, s, r, T.npc[r]);
    var s1 := LTUpto(T, s, r, T.npc[r]);
    var s2 := CrossWithin(T, g, h, s1, w);
    WithinTrans(s, s1, s2, r);
    var c2 := AskIs(T, s2, r);
    u := Put(s2, r, c2);
    WithinTrans(s, s2, u, r);
  }

  // The stages up to the requests: w is the port whose flit crosses.
  lemma FrontStage(T: Topo, g: Routing, h: Hub, len: nat, s: Net, st: InState) returns (u: Net, w: int)
    requires HubOk(T, g, h) && Good(T, s) && Amid(T, h, len, s, st) && Still(s.rs[h.r]) && s.rs[h.r].ran < s.now
    ensures u == Front(T, s, h.r) && Within(s, u, h.r) && Amid(T, h, len, u, st) && NoneWaiting(u.rs[h.r].c)
    ensures PortWaits(T, h, s.rs[h.r].c, w) && SameFlits(CrossedC(s.rs[h.r].c, w), u.rs[h.r].c)
    ensures st.V? ==> forall k :: Holds(T, h, k) && Q(u.rs[h.r].c, k) != [] ==> k in u.rs[h.r].c.sw
  {
    var r, c, p := h.r, s.rs[h.r].c, s.rs[h.r].pending;
    assert Control(T, r, c);
    w := WaitingPort(T, g, h, len, c, p, st);
    u := FrontMoves(T, g, h, s, w);
    CrossedCrowd(T, g, h, len, c, p, st, w);
    AskedCrowd(T, g, h, len, CrossedC(c, w), u.rs[r].c, p, st);
    assert Rested(T, r, s.rs[r], s.now);
    FrontInv(T, s, r);
    assert Control(T, r, u.rs[r].c);
    if st.V? {
      forall k | Holds(T, h, k) && Q(u.rs[r].c, k) != [] ensures k in u.rs[r].c.sw {
        HolderAsks(T, g, h, len, CrossedC(c, w), u.rs[r].c, p, k);
      }
    }
  }

  lemma AskedCrowd(T: Topo, g: Routing, h: Hub, len: nat, c: Ctl, c': Ctl, p: map<VC, seq<Flit>>, st: InState)
    requires HubOk(T, g, h) && Crowd(T, h, len, T.nvc, c, p, st) && NoneWaiting(c) && AskedAll(T, h.r, c, c')
    ensures Crowd(T, h, len, T.nvc, c', p, st) && NoneWaiting(c') && SameFlits(c, c')
  {
    forall ip ensures Waiting(c', ip) == INVALID_VC { assert Waiting(c, ip) == INVALID_VC; }
    forall k ensures PlacedAt(T, h, c', st, k) { Known(T, h, len, T.nvc, c, p, st, k); }
    BusySame(T, c, c', st, h.e);
    SameCrowd(T, h, len, T.nvc, c, p, st, c', st);
  }

  // The crossbar is as it was, and so are the flits.
  ghost predicate SameCrossbar(c: Ctl, c': Ctl) { SameFlits(c, c') && c'.waiting == c.waiting && c'.taken == c.taken }

  // The ejection port is free, or it has just been granted.
  ghost predicate Granting(h: Hub, c: Ctl, st: InState) { NoneWaiting(c) || (h.e in c.taken && st.V?) }

  lemma GrantNothing(T: Topo, g: Routing, h: Hub, len: nat, rs: RouterState, st: InState, now: int, a: Arb, spec: bool)
    requires HubOk(T, g, h) && Control(T, h.r, rs.c) && Crowd(T, h, len, T.nvc, rs.c, rs.pending, st)
    requires ValidArb(a, T.npc[h.r], T.nvc) && h.e in rs.c.taken
    ensures Grants(a, RoundOf(ViewOf(T, h.r, rs, now), rs.c.sw, spec), T.npc[h.r]) == []
  {
    forall k | T.ValidVC(h.r, k) && k in rs.c.sw ensures rs.c.sw[k].outPc in rs.c.taken {
      assert InOk(T, h.r, rs.c, k);
      Known(T, h, len, T.nvc, rs.c, rs.pending, st, k);
    }
    GrantsNone(T, h.r, rs, now, a, spec);
  }

  lemma GrantSomething(T: Topo, g: Routing, h: Hub, len: nat, u: Net, st: InState, a: Arb, spec: bool)
    returns (gs: seq<VC>, v: Net)
    requires HubOk(T, g, h) && Sized(T, u) && 0 <= h.r < |u.rs| && ValidArb(a, T.npc[h.r], T.nvc)
    requires Control(T, h.r, u.rs[h.r].c) && NoneWaiting(u.rs[h.r].c)
    requires Crowd(T, h, len, T.nvc, u.rs[h.r].c, u.rs[h.r].pending, st)
    ensures gs == Grants(a, Requests(T, h.r, u, spec), T.npc[h.r]) && v == GrantUpto(T, u, h.r, gs, |gs|)
    ensures Within(u, v, h.r) && SameFlits(u.rs[h.r].c, v.rs[h.r].c)
    ensures Crowd(T, h, len, T.nvc, v.rs[h.r].c, v.rs[h.r].pending, st)
    ensures (gs == [] ==> v == u) && (AllAsk(T, h, u.rs[h.r].c) ==> AllAsk(T, h, v.rs[h.r].c))
    ensures gs != [] ==> h.e in v.rs[h.r].c.taken && st.V? && exists k :: OneWaiting(v.rs[h.r].c, k)
    ensures (exists k :: T.ValidVC(h.r, k) && Wants(u.rs[h.r], u.now, spec, k)) ==> gs != []
  {
    var r, rs := h.r, u.rs[h.r];
    AllForEject(T, g, h, len, rs, rs.pending, st);
    gs := GrantsOne(T, r, rs, u.now, a, h.e, spec);
    TakesOne(T, u, r, gs);
    v := GrantUpto(T, u, r, gs, |gs|);
    if gs != [] {
      assert gs[0] in gs;
      GrantCrowd(T, g, h, len, rs.c, rs.pending, st, gs[0]);
    }
  }

  // stageSA or stageSSA.
  lemma GrantStage(T: Topo, g: Routing, h: Hub, len: nat, u: Net, st: InState, a: Arb, spec: bool)
    returns (gs: seq<VC>, v: Net)
    requires HubOk(T, g, h) && Amid(T, h, len, u, st) && ValidArb(a, T.npc[h.r], T.nvc) && Granting(h, u.rs[h.r].c, st)
    ensures gs == Grants(a, Requests(T, h.r, u, spec), T.npc[h.r]) && v == GrantUpto(T, u, h.r, gs, |gs|)
    ensures Within(u, v, h.r) && SameFlits(u.rs[h.r].c, v.rs[h.r].c) && Amid(T, h, len, v, st)
    ensures Granting(h, v.rs[h.r].c, st) && (!NoneWaiting(u.rs[h.r].c) ==> !NoneWaiting(v.rs[h.r].c))
    ensures AllAsk(T, h, u.rs[h.r].c) ==> AllAsk(T, h, v.rs[h.r].c)
    ensures NoneWaiting(u.rs[h.r].c) && (exists k :: T.ValidVC(h.r, k) && Wants(u.rs[h.r], u.now, spec, k)) ==>
              !NoneWaiting(v.rs[h.r].c)
  {
    var r, rs := h.r, u.rs[h.r];
    assert Control(T, r, rs.c);
    GrantsServe(T, r, rs, u.now, spec, a);
    if NoneWaiting(rs.c) {
      gs, v := GrantSomething(T, g, h, len, u, st, a, spec);
      if k :| OneWaiting(v.rs[r].c, k) && gs != [] { assert Waiting(v.rs[r].c, k.pc) == k.vc; }
    } else {
      GrantNothing(T, g, h, len, rs, st, u.now, a, spec);
      gs, v := [], u;
    }
    GrantUptoInv(T, u, r, spec, gs, |gs|);
  }

  lemma RouteStage(T: Topo, g: Routing, h: Hub, len: nat, u: Net, st: InState, early: bool) returns (v: Net)
    requires HubOk(T, g, h) && Amid(T, h, len, u, st)
    ensures v == RouteUpto(T, u, h.r, To(h.e, early), T.npc[h.r]) && RouteOk(T, h.r, To(h.e, early))
    ensures Within(u, v, h.r) && SameCrossbar(u.rs[h.r].c, v.rs[h.r].c) && Amid(T, h, len, v, AfterRC(st, early))
    ensures !early ==> AllAsk(T, h, v.rs[h.r].c)
  {
    var r, rs := h.r, u.rs[h.r];
    assert Control(T, r, rs.c);
    var c' := RouteIs(T, u, r, To(h.e, early));
    v := Put(u, r, c');
    RouteCrowd(T, g, h, len, rs.c, c', rs.pending, st, early);
    RouteUptoInv(T, u, r, To(h.e, early), T.npc[r]);
  }

  lemma HouseStage(T: Topo, g: Routing, h: Hub, len: nat, u: Net, st: InState) returns (v: Net)
    requires HubOk(T, g, h) && Amid(T, h, len, u, st)
    ensures v == VAFrom(T, u, h.r, Accept(), 0)
    ensures Within(u, v, h.r) && SameCrossbar(u.rs[h.r].c, v.rs[h.r].c) && Amid(T, h, len, v, AfterVA(st))
    ensures st.V? ==> v == u
  {
    var r, rs := h.r, u.rs[h.r];
    assert Control(T, r, rs.c);
    QueueIs(T, g, h, len, rs.c, rs.pending, st);
    if st.V? {
      VARefuses(T, u, r, Accept(), h.e, 0);
      v := u;
    } else {
      NoneBusy(T, g, h, len, rs.c, rs.pending, st);
      var c' := VAHouses(T, u, r, Accept(), h.e, 0);
      HouseCrowd(T, g, h, len, rs.c, c', rs.pending, st, u.now);
      v := Put(u, r, c');
      VAFromInv(T, u, r, Accept(), 0);
    }
  }

  // ---------- one call of router_sim, with the choices the program makes ----------

  // Whether the flits have come in this cycle.
  ghost predicate Came(T: Topo, h: Hub, start: Net, c: Ctl, early: bool)
    requires 0 <= h.r < |start.rs|
  {
    forall k {:trigger Q(c, k)} :: (Holds(T, h, k) || Waiter(T, h, k)) && Q(c, k) != [] ==>
      (Here(start.rs[h.r].c, k) == [] <==> early)
  }

  lemma CameSame(T: Topo, h: Hub, start: Net, c: Ctl, w: int, c': Ctl, early: bool)
    requires 0 <= h.r < |start.rs| && Came(T, h, start, c, early) && SameFlits(CrossedC(c, w), c')
    ensures Came(T, h, start, c', early)
  {
    forall k | (Holds(T, h, k) || Waiter(T, h, k)) && Q(c', k) != []
      ensures Here(start.rs[h.r].c, k) == [] <==> early {
      assert Q(c, k) != [];
    }
  }

  lemma RouteExact(T: Topo, g: Routing, h: Hub, len: nat, start: Net, s: Net, st: InState, early: bool)
    requires HubOk(T, g, h) && 0 <= h.r < |start.rs| && Amid(T, h, len, s, st) && Came(T, h, start, s.rs[h.r].c, early)
    ensures ExactRoute(g, start, h.r, s.rs[h.r].c, To(h.e, early))
  {
    var c, p := s.rs[h.r].c, s.rs[h.r].pending;
    assert Control(T, h.r, c);
    forall k | HeadWaits(c, k)
      ensures EnteredNow(start, h.r, c, k) <==> early
      ensures g.out(h.r, k, Q(c, k)[0].pkt, h.e)
    {
      Known(T, h, len, T.nvc, c, p, st, k);
      PeopleAre(T, g, h, k);
      FrontFlit(T, h, len, T.nvc, c, p, k);
      assert InOk(T, h.r, c, k) && MaySend(T, g, h.r, k, Q(c, k)[0].pkt, h.e);
      assert |Here(start.rs[h.r].c, k)| == |Got(start.rs[h.r].c, k)| + |Q(start.rs[h.r].c, k)|;
    }
  }

  lemma AdmitExact(T: Topo, g: Routing, h: Hub, len: nat, s: Net, st: InState)
    requires HubOk(T, g, h) && Amid(T, h, len, s, st)
    ensures ExactAdmit(T, g, h.r, s.rs[h.r].c, Accept())
  {
    var c, p := s.rs[h.r].c, s.rs[h.r].pending;
    assert Control(T, h.r, c);
    QueueIs(T, g, h, len, c, p, st);
    forall k, op, ov | 0 <= ov < T.nvc && (k, op) in c.reqQ && Q(c, k) != []
      ensures g.admits(h.r, k, Q(c, k)[0].pkt, op, ov)
    {
      var i :| 0 <= i < |c.reqQ| && c.reqQ[i] == (k, op);
      Known(T, h, len, T.nvc, c, p, st, k);
      PeopleAre(T, g, h, k);
      assert MaySend(T, g, h.r, k, Q(c, k)[0].pkt, h.e);
    }
  }

  // The state of the input VCs after stageVA.
  function MidSt(T: Topo, st: InState, early: bool): InState {
    AfterVA(if T.lookahead then AfterRC(st, early) else st)
  }

  // stageSA, stageRC with look-ahead, and stageVA.
  lemma MiddleStage(T: Topo, g: Routing, h: Hub, len: nat, u: Net, st: InState, early: bool, a: Arb, start: Net)
    returns (ch: Choice, v: Net)
    requires HubOk(T, g, h) && Amid(T, h, len, u, st) && ValidArb(a, T.npc[h.r], T.nvc) && NoneWaiting(u.rs[h.r].c)
    requires 0 <= h.r < |start.rs| && Came(T, h, start, u.rs[h.r].c, early)
    requires st.V? ==> forall k :: Holds(T, h, k) && Q(u.rs[h.r].c, k) != [] ==> k in u.rs[h.r].c.sw
    ensures ch == Choice(To(h.e, early), Accept(), Grants(a, Requests(T, h.r, u, false), T.npc[h.r]), [])
    ensures v == Middle(T, u, h.r, ch) && Within(u, v, h.r) && SameFlits(u.rs[h.r].c, v.rs[h.r].c)
    ensures Amid(T, h, len, v, MidSt(T, st, early)) && Granting(h, v.rs[h.r].c, MidSt(T, st, early))
    ensures ExactAdmit(T, g, h.r, BeforeVA(T, u, h.r, ch).rs[h.r].c, ch.admit)
    ensures T.lookahead ==> ExactRoute(g, start, h.r, BeforeRC(T, u, h.r, ch).rs[h.r].c, ch.route)
    ensures st.V? && (exists k :: Holds(T, h, k) && Q(u.rs[h.r].c, k) != []) ==> !NoneWaiting(v.rs[h.r].c)
    ensures T.lookahead && st.V? && !early ==> AllAsk(T, h, v.rs[h.r].c)
  {
    var gs, u1 := GrantStage(T, g, h, len, u, st, a, false);
    ch := Choice(To(h.e, early), Accept(), gs, []);
    if k :| st.V? && Holds(T, h, k) && Q(u.rs[h.r].c, k) != [] {
      PeopleAre(T, g, h, k);
      assert Wants(u.rs[h.r], u.now, false, k);
    }
    var u2, st2 := u1, st;
    if T.lookahead {
      RouteExact(T, g, h, len, start, u1, st, early) by { CameSame(T, h, start, u.rs[h.r].c, -1, u1.rs[h.r].c, early); }
      u2 := RouteStage(T, g, h, len, u1, st, early);
      st2 := AfterRC(st, early);
      WithinTrans(u, u1, u2, h.r);
    }
    AdmitExact(T, g, h, len, u2, st2);
    v := HouseStage(T, g, h, len, u2, st2);
    WithinTrans(u, u2, v, h.r);
    SameWaiting(u1.rs[h.r].c, v.rs[h.r].c);
  }

  lemma SameWaiting(c: Ctl, c': Ctl)
    requires c'.waiting == c.waiting
    ensures NoneWaiting(c) <==> NoneWaiting(c')
  {
    assert forall ip :: Waiting(c', ip) == Waiting(c, ip);
  }

  function NextSt(T: Topo, st: InState, early: bool): InState {
    if T.lookahead then MidSt(T, st, early) else AfterRC(MidSt(T, st, early), early)
  }

  // stageSSA, and stageRC without look-ahead; v is the state after stageVA.
  lemma BackStage(T: Topo, g: Routing, h: Hub, len: nat, v: Net, st: InState, early: bool, a: Arb, start: Net)
    returns (ssa: seq<VC>, x: Net, y: Net)
    requires HubOk(T, g, h) && Amid(T, h, len, v, st) && ValidArb(a, T.npc[h.r], T.nvc) && Granting(h, v.rs[h.r].c, st)
    requires 0 <= h.r < |start.rs| && Came(T, h, start, v.rs[h.r].c, early)
    ensures T.spec ==> ssa == Grants(a, Requests(T, h.r, v, true), T.npc[h.r])
    ensures x == if T.spec then GrantUpto(T, v, h.r, ssa, |ssa|) else v
    ensures y == if T.lookahead then x else RouteUpto(T, x, h.r, To(h.e, early), T.npc[h.r])
    ensures !T.lookahead ==> ExactRoute(g, start, h.r, x.rs[h.r].c, To(h.e, early))
    ensures Within(v, y, h.r) && SameFlits(v.rs[h.r].c, y.rs[h.r].c)
    ensures Amid(T, h, len, y, if T.lookahead then st else AfterRC(st, early))
    ensures !NoneWaiting(v.rs[h.r].c) ==> !NoneWaiting(y.rs[h.r].c)
    ensures !early && (T.lookahead ==> AllAsk(T, h, v.rs[h.r].c)) ==> AllAsk(T, h, y.rs[h.r].c)
  {
    ssa, x := [], v;
    if T.spec { ssa, x := GrantStage(T, g, h, len, v, st, a, true); }
    y := x;
    if !T.lookahead {
      CameSame(T, h, start, v.rs[h.r].c, -1, x.rs[h.r].c, early);
      RouteExact(T, g, h, len, start, x, st, early);
      y := RouteStage(T, g, h, len, x, st, early);
      WithinTrans(v, x, y, h.r);
      SameWaiting(x.rs[h.r].c, y.rs[h.r].c);
    }
  }

  // The router's own part of the moment.
  ghost predicate Ready(T: Topo, g: Routing, h: Hub, len: nat, m: Moment, st: InState, early: bool) {
    && Timed(T, m) && Good(T, m.net) && Amid(T, h, len, m.net, st) && Still(m.net.rs[h.r])
    && Came(T, h, m.start, m.net.rs[h.r].c, early) && m.net.rs[h.r].ran < m.net.now
  }

  // What the call does: the flit that waits at port w crosses; if one that holds an output VC has a flit left,
  // one waits again.
  ghost predicate Does(T: Topo, h: Hub, len: nat, s: Net, s': Net, st: InState, st': InState, w: int) {
    && Within(s, s', h.r) && PortWaits(T, h, s.rs[h.r].c, w)
    && SameFlits(CrossedC(s.rs[h.r].c, w), s'.rs[h.r].c)
    && Crowd(T, h, len, T.nvc, s'.rs[h.r].c, s'.rs[h.r].pending, st')
    && (st.V? && (exists k :: Holds(T, h, k) && Q(s'.rs[h.r].c, k) != []) ==> !NoneWaiting(s'.rs[h.r].c))
  }

  lemma DoesMore(T: Topo, h: Hub, len: nat, s: Net, u: Net, v: Net, st: InState, st1: InState, st2: InState, w: int)
    requires Does(T, h, len, s, u, st, st1, w) && Within(u, v, h.r) && SameFlits(u.rs[h.r].c, v.rs[h.r].c)
    requires Crowd(T, h, len, T.nvc, v.rs[h.r].c, v.rs[h.r].pending, st2)
    requires !NoneWaiting(u.rs[h.r].c) ==> !NoneWaiting(v.rs[h.r].c)
    ensures Does(T, h, len, s, v, st, st2, w)
  {
    WithinTrans(s, u, v, h.r);
    if k :| st.V? && Holds(T, h, k) && Q(v.rs[h.r].c, k) != [] { assert Q(u.rs[h.r].c, k) != []; }
  }

  // The stages up to stageVA lead to state v.
  ghost predicate Half(T: Topo, g: Routing, h: Hub, m: Moment, ch: Choice, v: Net, early: bool)
    requires Timed(T, m) && 0 <= h.r < |m.net.rs|
  {
    var u := Front(T, m.net, h.r);
    && ch == Choice(To(h.e, early), Accept(), Grants(m.arbs[h.r].regular, Requests(T, h.r, u, false), T.npc[h.r]), [])
    && v == Middle(T, u, h.r, ch) && ExactAdmit(T, g, h.r, BeforeVA(T, u, h.r, ch).rs[h.r].c, ch.admit)
    && (T.lookahead ==> ExactRoute(g, m.start, h.r, BeforeRC(T, u, h.r, ch).rs[h.r].c, ch.route))
    && Came(T, h, m.start, v.rs[h.r].c, early)
  }

  // Those that wait have been routed in this call, if that comes before stageVA.
  ghost predicate AskBefore(T: Topo, h: Hub, v: Net, st: InState, early: bool)
    requires 0 <= h.r < |v.rs|
  {
    T.lookahead && st.V? && !early ==> AllAsk(T, h, v.rs[h.r].c)
  }

  ghost predicate AmidGrants(T: Topo, h: Hub, len: nat, v: Net, st: InState) {
    Amid(T, h, len, v, st) && Granting(h, v.rs[h.r].c, st)
  }

  lemma CallsMiddle(T: Topo, g: Routing, h: Hub, len: nat, m: Moment, st: InState, early: bool)
    returns (ch: Choice, v: Net, w: int)
    requires HubOk(T, g, h) && Ready(T, g, h, len, m, st, early)
    ensures Half(T, g, h, m, ch, v, early) && Does(T, h, len, m.net, v, st, MidSt(T, st, early), w)
    ensures AmidGrants(T, h, len, v, MidSt(T, st, early)) && AskBefore(T, h, v, st, early)
  {
    var r, s := h.r, m.net;
    var u;
    u, w := FrontStage(T, g, h, len, s, st);
    CameSame(T, h, m.start, s.rs[r].c, w, u.rs[r].c, early);
    ch, v := MiddleStage(T, g, h, len, u, st, early, m.arbs[r].regular, m.start);
    CameSame(T, h, m.start, u.rs[r].c, -1, v.rs[r].c, early);
    WithinTrans(s, u, v, r);
    if k :| st.V? && Holds(T, h, k) && Q(v.rs[r].c, k) != [] { assert Q(u.rs[r].c, k) != []; }
  }

  lemma ToOk(T: Topo, g: Routing, h: Hub, early: bool)
    requires HubOk(T, g, h)
    ensures RouteOk(T, h.r, To(h.e, early))
  {}

  lemma CallsBack(T: Topo, g: Routing, h: Hub, len: nat, m: Moment, ch0: Choice, v: Net, st: InState, early: bool)
    returns (ch: Choice, x: Net, y: Net)
    requires HubOk(T, g, h) && Timed(T, m) && 0 <= h.r < |m.net.rs| && Half(T, g, h, m, ch0, v, early)
    requires AmidGrants(T, h, len, v, st)
    ensures Course(T, g, m, h.r, ch, v, x, y) && Within(v, y, h.r) && SameFlits(v.rs[h.r].c, y.rs[h.r].c)
    ensures Amid(T, h, len, y, if T.lookahead then st else AfterRC(st, early))
    ensures !NoneWaiting(v.rs[h.r].c) ==> !NoneWaiting(y.rs[h.r].c)
    ensures !early && (T.lookahead ==> AllAsk(T, h, v.rs[h.r].c)) ==> AllAsk(T, h, y.rs[h.r].c)
  {
    var ssa;
    ssa, x, y := BackStage(T, g, h, len, v, st, early, m.arbs[h.r].speculative, m.start);
    ch := ch0.(ssa := ssa);
    ToOk(T, g, h, early);
  }

  lemma Calling(T: Topo, g: Routing, h: Hub, len: nat, m: Moment, st: InState, early: bool)
    returns (ch: Choice, v: Net, x: Net, y: Net, w: int)
    requires HubOk(T, g, h) && Ready(T, g, h, len, m, st, early)
    ensures Course(T, g, m, h.r, ch, v, x, y) && Does(T, h, len, m.net, y, st, NextSt(T, st, early), w)
    ensures st.V? && !early ==> AllAsk(T, h, y.rs[h.r].c)
  {
    var ch0;
    ch0, v, w := CallsMiddle(T, g, h, len, m, st, early);
    ch, x, y := CallsBack(T, g, h, len, m, ch0, v, MidSt(T, st, early), early);
    DoesMore(T, h, len, m.net, v, y, st, MidSt(T, st, early), NextSt(T, st, early), w);
  }

  lemma DoesStamped(T: Topo, h: Hub, len: nat, s: Net, y: Net, st: InState, st': InState, w: int)
    requires Does(T, h, len, s, y, st, st', w)
    ensures Does(T, h, len, s, Upd(y, h.r, y.rs[h.r].(ran := y.now)), st, st', w)
  {}

  lemma Calls(T: Topo, g: Routing, h: Hub, len: nat, m: Moment, st: InState, early: bool)
    returns (ch: Choice, w: int)
    requires HubOk(T, g, h) && Ready(T, g, h, len, m, st, early)
    ensures ExactChoice(T, g, m, h.r, ch)
    ensures var s' := RouterSim(T, m.net, h.r, ch);
            Does(T, h, len, m.net, s', st, NextSt(T, st, early), w) && s'.rs[h.r].ran == s'.now &&
            (st.V? && !early ==> AllAsk(T, h, s'.rs[h.r].c))
  {
    var v, x, y;
    ch, v, x, y, w := Calling(T, g, h, len, m, st, early);
    CourseRuns(T, g, m, h.r, ch, v, x, y);
    DoesStamped(T, h, len, m.net, y, st, NextSt(T, st, early), w);
  }
}
