// What a routing function guarantees of the packets in the running network: each lies where the routing
// function may have brought it, and holds only what it was given.

module RoutedPackets {
  import opened Wiring
  import opened Flits
  import opened Protocol
  import opened Invariant
  import opened ControlProofs
  import opened StepProofs
  import opened Runs
  import opened Changes

  // A packet may come to wherever the routing function sends it.
  ghost predicate Closed(T: Topo, g: Routing) {
    forall r, k, p, op, ov {:trigger g.may(r, k, p), g.admits(r, k, p, op, ov)} ::
      T.ValidVC(r, k) && g.may(r, k, p) && g.out(r, k, p, op) && g.admits(r, k, p, op, ov) &&
        T.Down(Port(r, op)).Some? ==>
      var d := T.Down(Port(r, op)).value; g.may(d.router, VC(d.pc, ov), p)
  }

  ghost predicate Carried(g: Routing, r: int, k: VC, fs: seq<Flit>) {
    forall i {:trigger fs[i]} :: 0 <= i < |fs| ==> g.may(r, k, fs[i].pkt)
  }

  // The packet an input VC is busy with: the one whose flits it read last, if it has not read them all, or
  // else the one in front.
  function Current(c: Ctl, k: VC): nat {
    if Mid(Got(c, k)) then Got(c, k)[|Got(c, k)| - 1].pkt else if Q(c, k) != [] then Q(c, k)[0].pkt else 0
  }

  // An input module holds what its packet was given.
  ghost predicate Given(g: Routing, r: int, c: Ctl, k: VC) {
    var m := In(c, k);
    var p := Current(c, k);
    && (!m.st.I? ==> g.may(r, k, p) && g.out(r, k, p, m.outPc))
    && (m.st.V? || m.st.S? ==> g.admits(r, k, p, m.outPc, m.outVc))
  }

  // The flits on a wire belong where it leads.
  ghost predicate Bound(T: Topo, g: Routing, r: int, op: int, l: seq<Wire>) {
    T.Down(Port(r, op)).Some? ==>
      var d := T.Down(Port(r, op)).value;
      forall i {:trigger l[i]} :: 0 <= i < |l| ==> g.may(d.router, VC(d.pc, l[i].vc), l[i].flit.pkt)
  }

  ghost predicate Legal(T: Topo, g: Routing, r: int, rs: RouterState) {
    && (forall k {:trigger Q(rs.c, k)} :: T.ValidVC(r, k) ==> Carried(g, r, k, Q(rs.c, k)))
    && (forall k {:trigger Pending(rs, k)} :: T.ValidVC(r, k) ==> Carried(g, r, k, Pending(rs, k)))
    && (forall k {:trigger Given(g, r, rs.c, k)} :: T.ValidVC(r, k) ==> Given(g, r, rs.c, k))
    && (forall op {:trigger Link(rs.link, op)} :: Bound(T, g, r, op, Link(rs.link, op)))
  }

  ghost predicate AllLegal(T: Topo, g: Routing, s: Net) {
    forall r {:trigger s.rs[r]} :: 0 <= r < |s.rs| ==> Legal(T, g, r, s.rs[r])
  }

  lemma UpdLegal(T: Topo, g: Routing, s: Net, r: int, x: RouterState)
    requires AllLegal(T, g, s) && 0 <= r < |s.rs| && Legal(T, g, r, x)
    ensures AllLegal(T, g, Upd(s, r, x))
  {
    forall r' | 0 <= r' < |s.rs| ensures Legal(T, g, r', Upd(s, r, x).rs[r']) { assert Legal(T, g, r', s.rs[r']); }
  }

  // ---------- changes that move no flit ----------

  lemma Alike(T: Topo, g: Routing, r: int, a: RouterState, b: RouterState)
    requires Legal(T, g, r, a) && b.c.q == a.c.q && b.c.inm == a.c.inm && b.c.got == a.c.got
    requires b.link == a.link && b.pending == a.pending
    ensures Legal(T, g, r, b)
  {
    forall k | T.ValidVC(r, k)
      ensures Carried(g, r, k, Q(b.c, k)) && Carried(g, r, k, Pending(b, k)) && Given(g, r, b.c, k)
    {
      assert Given(g, r, a.c, k) && Q(b.c, k) == Q(a.c, k) && Pending(b, k) == Pending(a, k);
    }
    forall op ensures Bound(T, g, r, op, Link(b.link, op)) { assert Link(b.link, op) == Link(a.link, op); }
  }

  // Only the input module of k changes.
  lemma Remoded(T: Topo, g: Routing, r: int, a: RouterState, b: RouterState, k: VC)
    requires Legal(T, g, r, a) && b.c.q == a.c.q && b.c.got == a.c.got && b.link == a.link && b.pending == a.pending
    requires forall k' {:trigger In(b.c, k')} :: k' != k ==> In(b.c, k') == In(a.c, k')
    requires T.ValidVC(r, k) ==> Given(g, r, b.c, k)
    ensures Legal(T, g, r, b)
  {
    forall k' | T.ValidVC(r, k')
      ensures Carried(g, r, k', Q(b.c, k')) && Carried(g, r, k', Pending(b, k')) && Given(g, r, b.c, k')
    {
      assert Given(g, r, a.c, k') && Q(b.c, k') == Q(a.c, k') && Pending(b, k') == Pending(a, k');
      assert k' != k ==> In(b.c, k') == In(a.c, k');
    }
    forall op ensures Bound(T, g, r, op, Link(b.link, op)) { assert Link(b.link, op) == Link(a.link, op); }
  }

  lemma TakenLegal(T: Topo, g: Routing, r: int, rs: RouterState, k: VC, now: int)
    requires Legal(T, g, r, rs) && k in rs.c.sw && Q(rs.c, k) != [] && T.ValidVC(r, k)
    requires In(rs.c, k).st.V? || In(rs.c, k).st.S?
    ensures Legal(T, g, r, Take(T, r, rs, k, now))
  {
    assert Given(g, r, rs.c, k);
    Remoded(T, g, r, rs, Take(T, r, rs, k, now), k);
  }

  lemma AllocatedLegal(T: Topo, g: Routing, r: int, rs: RouterState, i: nat, ov: int, now: int)
    requires Legal(T, g, r, rs) && i < |rs.c.reqQ| && Lawful(g, r, rs.c, Allocated(i, ov))
    requires var k := rs.c.reqQ[i].0;
             && T.ValidVC(r, k) && !Mid(Got(rs.c, k))
             && In(rs.c, k).st.R? && In(rs.c, k).outPc == rs.c.reqQ[i].1
    ensures Legal(T, g, r, rs.(c := Allocate(rs.c, i, ov, now)))
  {
    assert Given(g, r, rs.c, rs.c.reqQ[i].0);
    Remoded(T, g, r, rs, rs.(c := Allocate(rs.c, i, ov, now)), rs.c.reqQ[i].0);
  }

  lemma RoutedLegal(T: Topo, g: Routing, r: int, rs: RouterState, k: VC, op: int)
    requires Legal(T, g, r, rs) && T.ValidVC(r, k) && Lawful(g, r, rs.c, Routed(k, op)) && !Mid(Got(rs.c, k))
    ensures Legal(T, g, r, rs.(c := Route(rs.c, k, op)))
  {
    assert Carried(g, r, k, Q(rs.c, k));
    assert Q(rs.c, k)[0] == Q(rs.c, k)[0];
    Remoded(T, g, r, rs, rs.(c := Route(rs.c, k, op)), k);
  }

  // ---------- changes that move a flit ----------

  lemma ReceivedAt(T: Topo, g: Routing, r: int, rs: RouterState, k: VC, f: Flit, k': VC)
    requires Legal(T, g, r, rs) && T.ValidVC(r, k) && g.may(r, k, f.pkt) && T.ValidVC(r, k')
    requires !In(rs.c, k).st.I? ==> Q(rs.c, k) != [] || Mid(Got(rs.c, k))
    ensures Carried(g, r, k', Q(Receive(rs, k, f).c, k')) && Given(g, r, Receive(rs, k, f).c, k')
  {
    assert Carried(g, r, k', Q(rs.c, k')) && Given(g, r, rs.c, k');
  }

  lemma Received(T: Topo, g: Routing, r: int, rs: RouterState, k: VC, f: Flit)
    requires Legal(T, g, r, rs) && T.ValidVC(r, k) && g.may(r, k, f.pkt)
    requires !In(rs.c, k).st.I? ==> Q(rs.c, k) != [] || Mid(Got(rs.c, k))
    ensures Legal(T, g, r, Receive(rs, k, f))
  {
    var x := Receive(rs, k, f);
    forall k' | T.ValidVC(r, k') ensures Carried(g, r, k', Q(x.c, k')) && Given(g, r, x.c, k') {
      ReceivedAt(T, g, r, rs, k, f, k');
    }
    forall k' | T.ValidVC(r, k') ensures Carried(g, r, k', Pending(x, k')) { assert Pending(x, k') == Pending(rs, k'); }
    forall op ensures Bound(T, g, r, op, Link(x.link, op)) { assert Link(x.link, op) == Link(rs.link, op); }
  }

  lemma Unloaded(T: Topo, g: Routing, r: int, rs: RouterState, op: int)
    requires Legal(T, g, r, rs) && Link(rs.link, op) != []
    ensures Legal(T, g, r, Unload(rs, op))
  {
    var x := Unload(rs, op);
    forall k | T.ValidVC(r, k)
      ensures Carried(g, r, k, Q(x.c, k)) && Carried(g, r, k, Pending(x, k)) && Given(g, r, x.c, k)
    {
      assert Given(g, r, rs.c, k) && Q(x.c, k) == Q(rs.c, k) && Pending(x, k) == Pending(rs, k);
    }
    forall op' ensures Bound(T, g, r, op', Link(x.link, op')) {
      assert Bound(T, g, r, op', Link(rs.link, op'));
      assert Link(x.link, op') == if op' == op then Link(rs.link, op)[1..] else Link(rs.link, op');
    }
  }

  // A flit that enters a buffer finds its input VC idle or busy with a packet that is there or under way.
  lemma BusyWith(T: Topo, s: Net, r: int, k: VC)
    requires Inv(T, s) && 0 <= r < |s.rs| && T.ValidVC(r, k)
    ensures !In(s.rs[r].c, k).st.I? ==> Q(s.rs[r].c, k) != [] || Mid(Got(s.rs[r].c, k))
    ensures !In(s.rs[r].c, k).st.S? ==> !Mid(Got(s.rs[r].c, k))
    ensures k in s.rs[r].c.sw ==> In(s.rs[r].c, k).st.V? || In(s.rs[r].c, k).st.S?
  {
    assert Control(T, r, s.rs[r].c);
    assert InOk(T, r, s.rs[r].c, k);
  }

  lemma ServedLegal(T: Topo, g: Routing, s: Net, r: int, op: int)
    requires Inv(T, s) && AllLegal(T, g, s) && 0 <= r < |s.rs| && 0 <= op < T.npc[r]
    ensures AllLegal(T, g, LTPort(T, s, r, op))
  {
    var s0 := Upd(s, r, StampLT(s.rs[r], op, s.now));
    Alike(T, g, r, s.rs[r], StampLT(s.rs[r], op, s.now));
    UpdLegal(T, g, s, r, StampLT(s.rs[r], op, s.now));
    if Due(T, s, r, op) {
      var w := Link(s.rs[r].link, op)[0];
      var d := T.Down(Port(r, op)).value;
      assert Link(s0.rs[r].link, op) == Link(s.rs[r].link, op);
      assert Bound(T, g, r, op, Link(s.rs[r].link, op));
      assert LinkOk(T, r, s.rs[r], s.now, op);
      T.WiredAt(Port(r, op), d);
      BusyWith(T, s, d.router, VC(d.pc, w.vc));
      MovedLegal(T, g, s0, r, op, d, w);
    }
  }

  lemma MovedLegal(T: Topo, g: Routing, s: Net, r: int, op: int, d: Port, w: Wire)
    requires Sized(T, s) && AllLegal(T, g, s) && 0 <= r < |s.rs| && T.Down(Port(r, op)) == Some(d)
    requires Link(s.rs[r].link, op) != [] && w == Link(s.rs[r].link, op)[0]
    requires T.ValidVC(d.router, VC(d.pc, w.vc)) && g.may(d.router, VC(d.pc, w.vc), w.flit.pkt)
    requires var c := s.rs[d.router].c; !In(c, VC(d.pc, w.vc)).st.I? ==>
             Q(c, VC(d.pc, w.vc)) != [] || Mid(Got(c, VC(d.pc, w.vc)))
    ensures AllLegal(T, g, Move(T, s, r, op))
  {
    Unloaded(T, g, r, s.rs[r], op);
    UpdLegal(T, g, s, r, Unload(s.rs[r], op));
    var s1 := Upd(s, r, Unload(s.rs[r], op));
    assert Legal(T, g, d.router, s1.rs[d.router]);
    Received(T, g, d.router, s1.rs[d.router], VC(d.pc, w.vc), w.flit);
    UpdLegal(T, g, s1, d.router, Receive(s1.rs[d.router], VC(d.pc, w.vc), w.flit));
  }

  // The flit stageST reads is one of the current packet.
  lemma ReadsCurrent(c: Ctl, k: VC)
    requires Wormhole(Got(c, k) + Q(c, k)) && Q(c, k) != []
    ensures Q(c, k)[0].pkt == Current(c, k)
  {
    WormholeCut(Got(c, k), Q(c, k));
  }

  lemma CrossedFront(T: Topo, g: Routing, r: int, rs: RouterState, k: VC, now: int)
    requires Legal(T, g, r, rs) && T.ValidVC(r, k) && Waiting(rs.c, k.pc) == k.vc && Q(rs.c, k) != [] &&
             In(rs.c, k).st.S?
    requires Q(rs.c, k)[0].pkt == Current(rs.c, k)
    ensures var x := Cross(T, r, rs, k.pc, now); Carried(g, r, k, Q(x.c, k)) && Given(g, r, x.c, k)
  {
    var x := Cross(T, r, rs, k.pc, now);
    assert Carried(g, r, k, Q(rs.c, k)) && Given(g, r, rs.c, k);
    assert Q(x.c, k) == Q(rs.c, k)[1..];
    assert Got(x.c, k) == Got(rs.c, k) + [Q(rs.c, k)[0]];
  }

  lemma CrossedHere(T: Topo, g: Routing, r: int, rs: RouterState, k: VC, now: int)
    requires Legal(T, g, r, rs) && T.ValidVC(r, k) && Waiting(rs.c, k.pc) == k.vc && Q(rs.c, k) != [] &&
             In(rs.c, k).st.S?
    requires Q(rs.c, k)[0].pkt == Current(rs.c, k)
    ensures var x := Cross(T, r, rs, k.pc, now);
            forall k' :: T.ValidVC(r, k') ==> Carried(g, r, k', Q(x.c, k')) && Given(g, r, x.c, k')
  {
    var x := Cross(T, r, rs, k.pc, now);
    CrossedFront(T, g, r, rs, k, now);
    forall k' | T.ValidVC(r, k') && k' != k ensures Carried(g, r, k', Q(x.c, k')) && Given(g, r, x.c, k') {
      assert Carried(g, r, k', Q(rs.c, k')) && Given(g, r, rs.c, k');
      assert Q(x.c, k') == Q(rs.c, k') && Got(x.c, k') == Got(rs.c, k') && In(x.c, k') == In(rs.c, k');
    }
  }

  lemma CrossedWires(T: Topo, g: Routing, r: int, rs: RouterState, k: VC, now: int)
    requires Closed(T, g) && Legal(T, g, r, rs) && T.ValidVC(r, k) && Waiting(rs.c, k.pc) == k.vc && Q(rs.c, k) != []
    requires In(rs.c, k).st.S? && Q(rs.c, k)[0].pkt == Current(rs.c, k)
    ensures var x := Cross(T, r, rs, k.pc, now);
            forall op {:trigger Link(x.link, op)} :: Bound(T, g, r, op, Link(x.link, op))
  {
    var x := Cross(T, r, rs, k.pc, now);
    assert Given(g, r, rs.c, k);
    var m := In(rs.c, k);
    forall op ensures Bound(T, g, r, op, Link(x.link, op)) {
      assert Bound(T, g, r, op, Link(rs.link, op));
      assert op != m.outPc ==> Link(x.link, op) == Link(rs.link, op);
    }
  }

  lemma CrossedLegal(T: Topo, g: Routing, s: Net, r: int, ip: int)
    requires Closed(T, g) && Inv(T, s) && AllLegal(T, g, s) && 0 <= r < |s.rs| && 0 <= ip < T.npc[r]
    requires Waiting(s.rs[r].c, ip) != INVALID_VC && Q(s.rs[r].c, VC(ip, Waiting(s.rs[r].c, ip))) != []
    ensures AllLegal(T, g, STPort(T, s, r, ip))
  {
    var rs := s.rs[r];
    var k := VC(ip, Waiting(rs.c, ip));
    assert Control(T, r, rs.c);
    assert WaitOk(T, r, rs.c, ip) && Wormhole(Here(rs.c, k));
    ReadsCurrent(rs.c, k);
    var x := Cross(T, r, rs, ip, s.now);
    CrossedHere(T, g, r, rs, k, s.now);
    CrossedWires(T, g, r, rs, k, s.now);
    forall k' | T.ValidVC(r, k') ensures Carried(g, r, k', Pending(x, k')) { assert Pending(x, k') == Pending(rs, k'); }
    UpdLegal(T, g, s, r, x);
    GaveBackLegal(T, g, Upd(s, r, x), k, T.Up(Port(r, ip)));
  }

  lemma GaveBackLegal(T: Topo, g: Routing, s: Net, k: VC, up: Option<Port>)
    requires AllLegal(T, g, s) && (up.Some? ==> 0 <= up.value.router < |s.rs|)
    ensures AllLegal(T, g, GiveBack(T, s, k, up))
  {
    if up.Some? {
      var u := up.value;
      var x := Deposit(s.rs[u.router], Credit(u.pc, k.vc, 1, s.now + T.Lat(u)));
      assert Legal(T, g, u.router, s.rs[u.router]);
      Alike(T, g, u.router, s.rs[u.router], x);
      UpdLegal(T, g, s, u.router, x);
    }
  }

  // ---------- every state ----------

  lemma ChangeLegal(T: Topo, g: Routing, s: Net, r: int, x: Change)
    requires Closed(T, g) && Leads(T, g, s, r, x) && AllLegal(T, g, s)
    ensures AllLegal(T, g, Changed(T, s, r, x))
  {
    var rs := s.rs[r];
    assert Legal(T, g, r, rs);
    match x
    case Credited =>
      Alike(T, g, r, rs, Inc(T, rs));
      UpdLegal(T, g, s, r, Inc(T, rs));
    case Served(op) => ServedLegal(T, g, s, r, op);
    case Crossed(ip) => CrossedLegal(T, g, s, r, ip);
    case Asked(k) =>
      Alike(T, g, r, rs, rs.(c := Request(rs.c, k, s.now)));
      UpdLegal(T, g, s, r, rs.(c := Request(rs.c, k, s.now)));
    case Taken(k) =>
      BusyWith(T, s, r, k);
      TakenLegal(T, g, r, rs, k, s.now);
      UpdLegal(T, g, s, r, Take(T, r, rs, k, s.now));
    case Allocated(i, ov) =>
      AllocatedAt(T, s, r, i);
      AllocatedLegal(T, g, r, rs, i, ov, s.now);
      UpdLegal(T, g, s, r, rs.(c := Allocate(rs.c, i, ov, s.now)));
    case Routed(k, op) =>
      BusyWith(T, s, r, k);
      RoutedLegal(T, g, r, rs, k, op);
      UpdLegal(T, g, s, r, rs.(c := Route(rs.c, k, op)));
    case Finished =>
      Alike(T, g, r, rs, rs.(ran := s.now));
      UpdLegal(T, g, s, r, rs.(ran := s.now));
  }

  lemma AllocatedAt(T: Topo, s: Net, r: int, i: nat)
    requires Inv(T, s) && 0 <= r < |s.rs| && i < |s.rs[r].c.reqQ|
    ensures var c := s.rs[r].c;
            var k := c.reqQ[i].0;
            T.ValidVC(r, k) && In(c, k).st.R? && In(c, k).outPc == c.reqQ[i].1 && !Mid(Got(c, k))
  {
    assert Control(T, r, s.rs[r].c);
    assert InOk(T, r, s.rs[r].c, s.rs[r].c.reqQ[i].0);
  }

  lemma ReservedLegal(T: Topo, g: Routing, r: int, rs: RouterState, k: VC, pkt: nat, start: nat, n: nat)
    requires Legal(T, g, r, rs) && g.may(r, k, pkt)
    ensures Legal(T, g, r, Reserve(rs, k, pkt, start, n))
  {
    var x := Reserve(rs, k, pkt, start, n);
    forall k' | T.ValidVC(r, k')
      ensures Carried(g, r, k', Q(x.c, k')) && Carried(g, r, k', Pending(x, k')) && Given(g, r, x.c, k')
    {
      assert Given(g, r, rs.c, k') && Carried(g, r, k', Pending(rs, k'));
      assert Pending(x, k') == if k' == k then Cut(pkt, start, n) else Pending(rs, k');
    }
    forall op ensures Bound(T, g, r, op, Link(x.link, op)) { assert Link(x.link, op) == Link(rs.link, op); }
  }

  lemma InjectedLegal(T: Topo, g: Routing, r: int, rs: RouterState, k: VC)
    requires Legal(T, g, r, rs) && T.ValidVC(r, k) && Pending(rs, k) != []
    requires !In(rs.c, k).st.I? ==> Q(rs.c, k) != [] || Mid(Got(rs.c, k))
    ensures Legal(T, g, r, Inject(rs, k))
  {
    var f := Pending(rs, k)[0];
    assert Carried(g, r, k, Pending(rs, k));
    Received(T, g, r, rs, k, f);
    var y := Receive(rs, k, f);
    var x := Inject(rs, k);
    forall k' | T.ValidVC(r, k')
      ensures Carried(g, r, k', Q(x.c, k')) && Carried(g, r, k', Pending(x, k')) && Given(g, r, x.c, k')
    {
      assert Given(g, r, y.c, k') && Carried(g, r, k', Q(y.c, k')) && Carried(g, r, k', Pending(y, k'));
      assert Pending(x, k') == if k' == k then Pending(rs, k)[1..] else Pending(y, k');
    }
    forall op ensures Bound(T, g, r, op, Link(x.link, op)) { assert Link(x.link, op) == Link(y.link, op); }
  }

  lemma OutsideLegal(T: Topo, g: Routing, s: Net, a: Action)
    requires Good(T, s) && !a.Sim? && Enabled(T, s, a) && LawfulAct(T, g, s, a) && AllLegal(T, g, s)
    ensures AllLegal(T, g, Do(T, s, a))
  {
    match a
    case Begin(r, k, pkt, start, n) =>
      assert Legal(T, g, r, s.rs[r]);
      ReservedLegal(T, g, r, s.rs[r], k, pkt, start, n);
      UpdLegal(T, g, s, r, Reserve(s.rs[r], k, pkt, start, n));
    case Write(r, k) =>
      assert Legal(T, g, r, s.rs[r]);
      BusyWith(T, s, r, k);
      InjectedLegal(T, g, r, s.rs[r], k);
      UpdLegal(T, g, s, r, Inject(s.rs[r], k));
    case Tick =>
      forall r | 0 <= r < |s.rs| ensures Legal(T, g, r, Do(T, s, a).rs[r]) { assert Legal(T, g, r, s.rs[r]); }
  }

  lemma InitLegal(T: Topo, g: Routing)
    ensures AllLegal(T, g, Init(T))
  {
    var s := Init(T);
    forall r | 0 <= r < |s.rs| ensures Legal(T, g, r, s.rs[r]) {}
  }

  // In every state the network comes to with a routing function, every flit is where that function may have
  // brought its packet, and every input VC holds an output port and VC that it gave the packet.
  lemma AlwaysLegal(T: Topo, g: Routing, s: Net)
    requires Closed(T, g) && LawfulReachable(T, g, s)
    ensures Reachable(T, s) && AllLegal(T, g, s)
  {
    var J := (s: Net) => AllLegal(T, g, s);
    forall s, r, x | Leads(T, g, s, r, x) && J(s) ensures J(Changed(T, s, r, x)) { ChangeLegal(T, g, s, r, x); }
    forall s, a: Action | Good(T, s) && !a.Sim? && Enabled(T, s, a) && LawfulAct(T, g, s, a) && J(s)
      ensures J(Do(T, s, a)) {
      OutsideLegal(T, g, s, a);
    }
    InitLegal(T, g);
    Invariance(T, g, J, s);
  }
}
