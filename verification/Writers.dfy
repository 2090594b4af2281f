// Who writes into an injection port: with one process for each port a packet that was begun always has room
// for its next flit, even where the virtual channels of the port share its buffer.

module Writers {
  import opened Wiring
  import opened Flits
  import opened Protocol
  import opened Invariant
  import opened ControlProofs
  import opened LinkProofs
  import opened Stages
  import opened Runs
  import opened Changes

  // At most one packet at a time is written into an injection port, and the other VCs of the port leave room
  // for it in the buffer.
  ghost predicate Roomy(T: Topo, r: int, rs: RouterState) {
    && (forall k: VC, k': VC {:trigger Pending(rs, k), Pending(rs, k')} ::
          k.pc == k'.pc && Pending(rs, k) != [] && Pending(rs, k') != [] ==> k == k')
    && (forall k {:trigger Pending(rs, k)} :: T.ValidVC(r, k) && T.IsEject(r, k.pc) && Pending(rs, k) != [] ==>
          RowQ(rs.c.q, k.pc, T.nvc) < T.nvc * T.depth + |Q(rs.c, k)|)
  }

  ghost predicate AllRoomy(T: Topo, s: Net) {
    forall r {:trigger s.rs[r]} :: 0 <= r < |s.rs| ==> Roomy(T, r, s.rs[r])
  }

  lemma SameRoomy(T: Topo, r: int, a: RouterState, b: RouterState)
    requires Roomy(T, r, a) && b.pending == a.pending && b.c.q == a.c.q
    ensures Roomy(T, r, b)
  {
    forall k ensures Pending(b, k) == Pending(a, k) && Q(b.c, k) == Q(a.c, k) {}
  }

  lemma UpdRoomy(T: Topo, s: Net, r: int, x: RouterState)
    requires AllRoomy(T, s) && 0 <= r < |s.rs| && Roomy(T, r, x)
    ensures AllRoomy(T, Upd(s, r, x))
  {
    forall r' | 0 <= r' < |s.rs| ensures Roomy(T, r', Upd(s, r, x).rs[r']) { assert Roomy(T, r', s.rs[r']); }
  }

  lemma RestRoomy(T: Topo, s: Net, r: int, x: RouterState)
    requires AllRoomy(T, s) && 0 <= r < |s.rs| && x.pending == s.rs[r].pending && x.c.q == s.rs[r].c.q
    ensures AllRoomy(T, Upd(s, r, x))
  {
    assert Roomy(T, r, s.rs[r]);
    SameRoomy(T, r, s.rs[r], x);
    UpdRoomy(T, s, r, x);
  }

  // A buffer that gets shorter, or that is not of an injection port, takes no room away.
  lemma OneQRoomy(T: Topo, r: int, a: RouterState, b: RouterState, k: VC, v: seq<Flit>)
    requires Roomy(T, r, a) && b.pending == a.pending && b.c.q == a.c.q[k := v]
    requires |v| <= |Q(a.c, k)| || !T.IsEject(r, k.pc)
    ensures Roomy(T, r, b)
  {
    forall k' ensures Pending(b, k') == Pending(a, k') {}
    forall k' | T.ValidVC(r, k') && T.IsEject(r, k'.pc) && Pending(b, k') != []
      ensures RowQ(b.c.q, k'.pc, T.nvc) < T.nvc * T.depth + |Q(b.c, k')|
    {
      assert Pending(a, k') != [];
      RowQSet(a.c.q, k, v, k'.pc, T.nvc);
    }
  }

  lemma ServedRoomy(T: Topo, s: Net, r: int, op: int)
    requires T.Valid() && Sized(T, s) && AllRoomy(T, s) && 0 <= r < |s.rs|
    ensures AllRoomy(T, LTPort(T, s, r, op))
  {
    var s0 := Upd(s, r, StampLT(s.rs[r], op, s.now));
    RestRoomy(T, s, r, StampLT(s.rs[r], op, s.now));
    if Due(T, s, r, op) {
      var d := T.Down(Port(r, op)).value;
      var w := Link(s.rs[r].link, op)[0];
      T.WiredAt(Port(r, op), d);
      RestRoomy(T, s0, r, Unload(s0.rs[r], op));
      var s1 := Upd(s0, r, Unload(s0.rs[r], op));
      var x := s1.rs[d.router];
      assert Roomy(T, d.router, x);
      OneQRoomy(T, d.router, x, Receive(x, VC(d.pc, w.vc), w.flit), VC(d.pc, w.vc), Q(x.c, VC(d.pc, w.vc)) + [w.flit]);
      UpdRoomy(T, s1, d.router, Receive(x, VC(d.pc, w.vc), w.flit));
    }
  }

  lemma CrossedRoomy(T: Topo, s: Net, r: int, ip: int)
    requires Sized(T, s) && AllRoomy(T, s) && 0 <= r < |s.rs| && Q(s.rs[r].c, VC(ip, Waiting(s.rs[r].c, ip))) != []
    ensures AllRoomy(T, STPort(T, s, r, ip))
  {
    var rs := s.rs[r];
    var k := VC(ip, Waiting(rs.c, ip));
    var x := Cross(T, r, rs, ip, s.now);
    assert Roomy(T, r, rs);
    OneQRoomy(T, r, rs, x, k, Q(rs.c, k)[1..]);
    UpdRoomy(T, s, r, x);
    var s1 := Upd(s, r, x);
    match T.Up(Port(r, ip))
    case None =>
    case Some(u) =>
      RestRoomy(T, s1, u.router, Deposit(s1.rs[u.router], Credit(u.pc, k.vc, 1, s.now + T.Lat(u))));
  }

  lemma ChangeRoomy(T: Topo, g: Routing, s: Net, r: int, x: Change)
    requires T.Valid() && Leads(T, g, s, r, x) && AllRoomy(T, s)
    ensures AllRoomy(T, Changed(T, s, r, x))
  {
    var rs := s.rs[r];
    match x
    case Credited => RestRoomy(T, s, r, Inc(T, rs));
    case Served(op) => ServedRoomy(T, s, r, op);
    case Crossed(ip) => CrossedRoomy(T, s, r, ip);
    case Asked(k) => RestRoomy(T, s, r, rs.(c := Request(rs.c, k, s.now)));
    case Taken(k) => RestRoomy(T, s, r, Take(T, r, rs, k, s.now));
    case Allocated(i, ov) => RestRoomy(T, s, r, rs.(c := Allocate(rs.c, i, ov, s.now)));
    case Routed(k, op) => RestRoomy(T, s, r, rs.(c := Route(rs.c, k, op)));
    case Finished => RestRoomy(T, s, r, rs.(ran := s.now));
  }

  lemma ReservedRoomy(T: Topo, r: int, rs: RouterState, k: VC, pkt: nat, start: nat, n: nat)
    requires T.damq && Roomy(T, r, rs) && NoneBegun(rs, k.pc) && !IsFull(T, rs.c, k)
    ensures Roomy(T, r, Reserve(rs, k, pkt, start, n))
  {
    var x := Reserve(rs, k, pkt, start, n);
    forall k' | k' != k ensures Pending(x, k') == Pending(rs, k') {}
  }

  lemma InjectedRoomy(T: Topo, r: int, rs: RouterState, k: VC)
    requires T.damq && Roomy(T, r, rs) && Pending(rs, k) != []
    ensures Roomy(T, r, Inject(rs, k))
  {
    var x := Inject(rs, k);
    forall k' ensures Pending(x, k') == if k' == k then Pending(rs, k)[1..] else Pending(rs, k') {}
    forall k' | T.ValidVC(r, k') && T.IsEject(r, k'.pc) && Pending(x, k') != []
      ensures RowQ(x.c.q, k'.pc, T.nvc) < T.nvc * T.depth + |Q(x.c, k')|
    {
      assert Pending(rs, k') != [];
      RowQSet(rs.c.q, k, Q(rs.c, k) + [Pending(rs, k)[0]], k'.pc, T.nvc);
    }
  }

  lemma OutsideRoomy(T: Topo, g: Routing, s: Net, a: Action)
    requires T.damq && g.single && Good(T, s) && !a.Sim? && Enabled(T, s, a) && LawfulAct(T, g, s, a) && AllRoomy(T, s)
    ensures AllRoomy(T, Do(T, s, a))
  {
    match a
    case Begin(r, k, pkt, start, n) =>
      assert Roomy(T, r, s.rs[r]);
      ReservedRoomy(T, r, s.rs[r], k, pkt, start, n);
      UpdRoomy(T, s, r, Reserve(s.rs[r], k, pkt, start, n));
    case Write(r, k) =>
      assert Roomy(T, r, s.rs[r]);
      InjectedRoomy(T, r, s.rs[r], k);
      UpdRoomy(T, s, r, Inject(s.rs[r], k));
    case Tick =>
      forall r | 0 <= r < |s.rs| ensures Roomy(T, r, Do(T, s, a).rs[r]) { assert Roomy(T, r, s.rs[r]); }
  }

  // With shared buffers and one process for each port this holds in every state the network comes to.
  lemma AlwaysRoomy(T: Topo, g: Routing, s: Net)
    requires T.damq && g.single && LawfulReachable(T, g, s)
    ensures AllRoomy(T, s)
  {
    var J := (s: Net) => AllRoomy(T, s);
    forall s, r, x | Leads(T, g, s, r, x) && J(s) ensures J(Changed(T, s, r, x)) { ChangeRoomy(T, g, s, r, x); }
    forall s, a: Action | Good(T, s) && !a.Sim? && Enabled(T, s, a) && LawfulAct(T, g, s, a) && J(s)
      ensures J(Do(T, s, a)) {
      OutsideRoomy(T, g, s, a);
    }
    Invariance(T, g, J, s);
  }

  // ---------- packets crowded out ----------

  // A packet being written has nothing left in the buffer and finds it full of other VCs' flits.
  ghost predicate CrowdedOut(T: Topo, s: Net, r: int, k: VC) {
    && 0 <= r < |s.rs| && T.ValidVC(r, k) && T.IsEject(r, k.pc) && Pending(s.rs[r], k) != []
    && Q(s.rs[r].c, k) == [] && IsFull(T, s.rs[r].c, k)
  }

  // The other VCs of an injection port cannot take the room of a packet that is being written.
  predicate Guarded(T: Topo, single: bool) { !T.damq || T.nvc == 1 || single }

  lemma SingleRow(q: map<VC, seq<Flit>>, pc: int)
    ensures RowQ(q, pc, 1) == |Queue(q, VC(pc, 0))|
  {
    assert RowQ(q, pc, 1) == RowQ(q, pc, 0) + |Queue(q, VC(pc, 0))|;
  }

  lemma AloneNotCrowded(T: Topo, s: Net, r: int, k: VC)
    requires T.depth >= 1 && (!T.damq || T.nvc == 1)
    ensures !CrowdedOut(T, s, r, k)
  {
    if 0 <= r < |s.rs| { SingleRow(s.rs[r].c.q, k.pc); }
  }

  lemma NeverCrowdedOut(T: Topo, g: Routing, s: Net, r: int, k: VC)
    requires Guarded(T, g.single) && T.depth >= 1 && LawfulReachable(T, g, s)
    ensures !CrowdedOut(T, s, r, k)
  {
    if !T.damq || T.nvc == 1 {
      AloneNotCrowded(T, s, r, k);
    } else {
      AlwaysRoomy(T, g, s);
      assert 0 <= r < |s.rs| ==> Roomy(T, r, s.rs[r]);
    }
  }
}
