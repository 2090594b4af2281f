// Deadlock freedom of the running network: as long as there are flits in it, one of them can move.

module Progress {
  import opened Wiring
  import opened Flits
  import opened Protocol
  import opened Invariant
  import opened ControlProofs
  import opened Stages
  import opened Runs
  import opened Changes
  import opened RoutedPackets
  import opened Writers

  // ---------- the unreserved credits of a VC ----------

  // The shared counter of a VC never exceeds what its buffer has beyond the reserve.
  ghost predicate Sparing(T: Topo, r: int, rs: RouterState) {
    forall o {:trigger Cr(T, rs.cred, o)} :: T.ValidVC(r, o) && T.Down(Port(r, o.pc)).Some? ==>
      Cr(T, rs.cred, o).num <= T.depth - T.rsv
  }

  ghost predicate AllSparing(T: Topo, s: Net) {
    forall r {:trigger s.rs[r]} :: 0 <= r < |s.rs| ==> Sparing(T, r, s.rs[r])
  }

  ghost predicate SameCredits(s: Net, s': Net) {
    |s'.rs| == |s.rs| && forall r {:trigger s'.rs[r]} :: 0 <= r < |s.rs| ==> s'.rs[r].cred == s.rs[r].cred
  }

  lemma SameSparing(T: Topo, s: Net, s': Net)
    requires AllSparing(T, s) && SameCredits(s, s')
    ensures AllSparing(T, s')
  {
    forall r | 0 <= r < |s'.rs| ensures Sparing(T, r, s'.rs[r]) {
      assert Sparing(T, r, s.rs[r]);
      forall o | T.ValidVC(r, o) && T.Down(Port(r, o.pc)).Some? ensures Cr(T, s'.rs[r].cred, o).num <= T.depth - T.rsv {
        assert Cr(T, s'.rs[r].cred, o) == Cr(T, s.rs[r].cred, o);
      }
    }
  }

  lemma UpdSparing(T: Topo, s: Net, r: int, x: RouterState)
    requires AllSparing(T, s) && 0 <= r < |s.rs| && Sparing(T, r, x)
    ensures AllSparing(T, Upd(s, r, x))
  {
    forall r' | 0 <= r' < |s.rs| ensures Sparing(T, r', Upd(s, r, x).rs[r']) { assert Sparing(T, r', s.rs[r']); }
  }

  // A returned credit first fills the reserve.
  lemma AddSparing(T: Topo, cred: map<VC, Cred>, o: VC, num: nat)
    requires Cr(T, cred, o).num + Cr(T, cred, o).rsv + num <= T.depth && Cr(T, cred, o).num <= T.depth - T.rsv
    requires 0 <= Cr(T, cred, o).rsv <= T.rsv && (!T.damq ==> Cr(T, cred, o).rsv == T.rsv)
    ensures Cr(T, AddCredit(T, cred, o, num), o).num <= T.depth - T.rsv
  {}

  lemma CreditedSparing(T: Topo, s: Net, r: int)
    requires Inv(T, s) && AllSparing(T, s) && 0 <= r < |s.rs| && s.rs[r].deps != []
    ensures Sparing(T, r, Inc(T, s.rs[r]))
  {
    var rs := s.rs[r];
    var d := rs.deps[0];
    var o := VC(d.outPc, d.outVc);
    assert Sparing(T, r, rs);
    assert DepSum(rs.deps, o) >= d.num;
    forall o' | T.ValidVC(r, o') && T.Down(Port(r, o'.pc)).Some?
      ensures Cr(T, Inc(T, rs).cred, o').num <= T.depth - T.rsv
    {
      assert CreditOk(T, s, r, o') && Cr(T, rs.cred, o').num <= T.depth - T.rsv;
      if o' == o { AddSparing(T, rs.cred, o, d.num); }
    }
  }

  lemma TakenSparing(T: Topo, r: int, rs: RouterState, k: VC, now: int)
    requires Sparing(T, r, rs) && k in rs.c.sw && Q(rs.c, k) != []
    ensures Sparing(T, r, Take(T, r, rs, k, now))
  {
    var x := Take(T, r, rs, k, now);
    forall o | T.ValidVC(r, o) && T.Down(Port(r, o.pc)).Some? ensures Cr(T, x.cred, o).num <= T.depth - T.rsv {
      assert Cr(T, rs.cred, o).num <= T.depth - T.rsv;
    }
  }

  lemma ServedSparing(T: Topo, s: Net, r: int, op: int)
    requires Sized(T, s) && AllSparing(T, s) && 0 <= r < |s.rs|
    ensures AllSparing(T, LTPort(T, s, r, op))
  {
    SameSparing(T, s, LTPort(T, s, r, op));
  }

  lemma CrossedSparing(T: Topo, s: Net, r: int, ip: int)
    requires Sized(T, s) && AllSparing(T, s) && 0 <= r < |s.rs| && Q(s.rs[r].c, VC(ip, Waiting(s.rs[r].c, ip))) != []
    ensures AllSparing(T, STPort(T, s, r, ip))
  {
    SameSparing(T, s, STPort(T, s, r, ip));
  }

  lemma ChangeSparing(T: Topo, g: Routing, s: Net, r: int, x: Change)
    requires Leads(T, g, s, r, x) && AllSparing(T, s)
    ensures AllSparing(T, Changed(T, s, r, x))
  {
    var rs := s.rs[r];
    match x
    case Credited =>
      CreditedSparing(T, s, r);
      UpdSparing(T, s, r, Inc(T, rs));
    case Served(op) => ServedSparing(T, s, r, op);
    case Crossed(ip) => CrossedSparing(T, s, r, ip);
    case Asked(k) => SameSparing(T, s, Upd(s, r, rs.(c := Request(rs.c, k, s.now))));
    case Taken(k) =>
      assert Sparing(T, r, rs);
      TakenSparing(T, r, rs, k, s.now);
      UpdSparing(T, s, r, Take(T, r, rs, k, s.now));
    case Allocated(i, ov) => SameSparing(T, s, Upd(s, r, rs.(c := Allocate(rs.c, i, ov, s.now))));
    case Routed(k, op) => SameSparing(T, s, Upd(s, r, rs.(c := Route(rs.c, k, op))));
    case Finished => SameSparing(T, s, Upd(s, r, rs.(ran := s.now)));
  }

  lemma AlwaysSparing(T: Topo, s: Net)
    requires Reachable(T, s)
    ensures AllSparing(T, s)
  {
    var J := (s: Net) => AllSparing(T, s);
    forall s, r, x | Leads(T, FREE, s, r, x) && J(s) ensures J(Changed(T, s, r, x)) { ChangeSparing(T, FREE, s, r, x); }
    forall s, a: Action | Good(T, s) && !a.Sim? && Enabled(T, s, a) && LawfulAct(T, FREE, s, a) && J(s)
      ensures J(Do(T, s, a)) {
      SameSparing(T, s, Do(T, s, a));
    }
    FreeReachable(T, s);
    Invariance(T, FREE, J, s);
  }

  // ---------- what can move ----------

  // No flit is on a wire or in a crossbar and no credit on its way.
  ghost predicate Quiet(s: Net) {
    forall r {:trigger s.rs[r]} :: 0 <= r < |s.rs| ==>
      && s.rs[r].deps == []
      && (forall op {:trigger Link(s.rs[r].link, op)} :: Link(s.rs[r].link, op) == [])
      && (forall ip {:trigger Waiting(s.rs[r].c, ip)} :: Waiting(s.rs[r].c, ip) == INVALID_VC)
  }

  // The flit in front of input VC k can move: its packet is still to be routed, or an output VC admitted for
  // it is free, or it has its output VC and a credit for it, or leaves the network.
  ghost predicate Movable(T: Topo, g: Routing, s: Net, r: int, k: VC) {
    0 <= r < |s.rs| && T.ValidVC(r, k) && Q(s.rs[r].c, k) != [] &&
    var c := s.rs[r].c;
    var m := In(c, k);
    match m.st
    case I => true
    case R => exists ov :: 0 <= ov < T.nvc && g.admits(r, k, Current(c, k), m.outPc, ov) && VC(m.outPc, ov) !in c.busy
    case _ => T.IsEject(r, m.outPc) || HasCredit(T, s.rs[r].cred, VC(m.outPc, m.outVc))
  }

  // The network interface can write its next flit into injection VC k.
  ghost predicate Writable(T: Topo, s: Net, r: int, k: VC) {
    && 0 <= r < |s.rs| && T.ValidVC(r, k) && T.IsEject(r, k.pc) && Pending(s.rs[r], k) != []
    && !IsFull(T, s.rs[r].c, k)
  }

  ghost predicate GoesOn(T: Topo, g: Routing, s: Net) {
    || (exists r, k {:trigger Movable(T, g, s, r, k)} :: Movable(T, g, s, r, k))
    || (exists r, k {:trigger Writable(T, s, r, k)} :: Writable(T, s, r, k))
  }

  // ---------- what the routing function has to give ----------

  // Every hop leads to input VCs of higher rank.
  ghost predicate Ranked(T: Topo, g: Routing, rank: (int, VC) -> nat, top: nat) {
    && (forall r, k {:trigger rank(r, k)} :: T.ValidVC(r, k) ==> rank(r, k) <= top)
    && (forall r, k, p, op, ov {:trigger g.out(r, k, p, op), g.admits(r, k, p, op, ov)} ::
          T.ValidVC(r, k) && g.may(r, k, p) && g.out(r, k, p, op) && g.admits(r, k, p, op, ov) &&
            T.Down(Port(r, op)).Some? ==>
          var d := T.Down(Port(r, op)).value; rank(r, k) < rank(d.router, VC(d.pc, ov)))
  }

  // Some output VC is always admitted.
  ghost predicate Admitting(T: Topo, g: Routing) {
    forall r, k, p, op {:trigger g.out(r, k, p, op)} ::
      T.ValidVC(r, k) && g.may(r, k, p) && g.out(r, k, p, op) ==>
        exists ov :: 0 <= ov < T.nvc && g.admits(r, k, p, op, ov)
  }

  // Packets come from another router or from a network interface.
  ghost predicate Entered(T: Topo, g: Routing) {
    forall r, k, p {:trigger g.may(r, k, p)} ::
      T.ValidVC(r, k) && g.may(r, k, p) && T.Up(Port(r, k.pc)).None? ==> T.IsEject(r, k.pc)
  }

  // A buffer that is empty has a credit to offer.
  predicate Covered(T: Topo) { T.rsv <= T.depth && (if T.damq then T.rsv >= 1 else T.depth > T.rsv) }

  ghost predicate Halted(T: Topo, g: Routing, s: Net) {
    && Good(T, s) && AllLegal(T, g, s) && AllSparing(T, s) && Quiet(s) && Covered(T)
    && forall r, k {:trigger CrowdedOut(T, s, r, k)} :: !CrowdedOut(T, s, r, k)
  }

  // ---------- in a network that has come to rest ----------

  lemma NothingCrosses(T: Topo, g: Routing, s: Net, r: int, o: VC)
    requires Halted(T, g, s) && 0 <= r < |s.rs| && T.ValidVC(r, o)
    ensures InXbar(s.rs[r].c, o) == 0
  {
    var c := s.rs[r].c;
    assert Control(T, r, c);
    assert XOk(T, r, c, o.pc);
    assert forall ip :: Waiting(c, ip) == INVALID_VC;
  }

  lemma EmptyHasCredit(T: Topo, g: Routing, s: Net, r: int, o: VC, d: Port)
    requires Halted(T, g, s) && 0 <= r < |s.rs| && T.ValidVC(r, o) && T.Down(Port(r, o.pc)) == Some(d)
    requires 0 <= d.router < |s.rs| && Q(s.rs[d.router].c, VC(d.pc, o.vc)) == []
    ensures HasCredit(T, s.rs[r].cred, o)
  {
    NothingCrosses(T, g, s, r, o);
    assert CreditOk(T, s, r, o) && Sparing(T, r, s.rs[r]);
    assert Link(s.rs[r].link, o.pc) == [];
    assert Cr(T, s.rs[r].cred, o).num + Cr(T, s.rs[r].cred, o).rsv == T.depth;
  }

  // The input VC a busy output VC belongs to.
  lemma Holder(T: Topo, s: Net, r: int, o: VC) returns (k: VC)
    requires Good(T, s) && 0 <= r < |s.rs| && T.ValidVC(r, o) && (o in s.rs[r].c.busy || Mid(Sent(s.rs[r].c, o)))
    ensures T.ValidVC(r, k) && (In(s.rs[r].c, k).st.V? || In(s.rs[r].c, k).st.S?)
    ensures In(s.rs[r].c, k).outPc == o.pc && In(s.rs[r].c, k).outVc == o.vc
  {
    var c := s.rs[r].c;
    assert Control(T, r, c);
    assert OutOk(T, r, c, o);
    k := c.owner[o];
  }

  // An input VC in state S with an empty buffer has read part of a packet.
  lemma PartRead(T: Topo, g: Routing, s: Net, r: int, k: VC)
    requires Halted(T, g, s) && 0 <= r < |s.rs| && T.ValidVC(r, k) && Q(s.rs[r].c, k) == [] && !In(s.rs[r].c, k).st.I?
    ensures Mid(Got(s.rs[r].c, k)) && In(s.rs[r].c, k).st.S?
    ensures match T.Up(Port(r, k.pc))
            case None => Pending(s.rs[r], k) != []
            case Some(u) => 0 <= u.router < |s.rs| && Mid(Sent(s.rs[u.router].c, VC(u.pc, k.vc)))
  {
    var c := s.rs[r].c;
    assert Control(T, r, c);
    assert InOk(T, r, c, k) && Waiting(c, k.pc) == INVALID_VC;
    assert StreamOk(T, s, r, k);
    match T.Up(Port(r, k.pc))
    case None => assert Arrivals(T, s, r, k) == Got(c, k) + Pending(s.rs[r], k);
    case Some(u) =>
      assert Link(s.rs[u.router].link, u.pc) == [];
      assert Arrivals(T, s, r, k) == Got(c, k);
  }

  // The packet whose first part an input VC has read goes on further back: there a flit of it can move, or its
  // network interface can write the next.
  lemma {:induction false} TailMoves(T: Topo, g: Routing, rank: (int, VC) -> nat, top: nat, s: Net, r: int, k: VC)
    requires Halted(T, g, s) && Ranked(T, g, rank, top) && Entered(T, g)
    requires 0 <= r < |s.rs| && T.ValidVC(r, k) && Q(s.rs[r].c, k) == [] && !In(s.rs[r].c, k).st.I?
    ensures GoesOn(T, g, s)
    decreases rank(r, k)
  {
    PartRead(T, g, s, r, k);
    assert Legal(T, g, r, s.rs[r]);
    assert Given(g, r, s.rs[r].c, k);
    match T.Up(Port(r, k.pc))
    case None =>
      assert !CrowdedOut(T, s, r, k);
      assert Writable(T, s, r, k);
    case Some(u) =>
      T.WiredAt(u, Port(r, k.pc));
      var o := VC(u.pc, k.vc);
      var k1 := Holder(T, s, u.router, o);
      EmptyHasCredit(T, g, s, u.router, o, Port(r, k.pc));
      if Q(s.rs[u.router].c, k1) != [] {
        assert Movable(T, g, s, u.router, k1);
      } else {
        assert Legal(T, g, u.router, s.rs[u.router]);
        assert Given(g, u.router, s.rs[u.router].c, k1);
        TailMoves(T, g, rank, top, s, u.router, k1);
      }
  }

  // An output VC that is taken is given up in time, or there is a flit behind it, in a buffer of higher rank.
  lemma BeyondTaken(T: Topo, g: Routing, rank: (int, VC) -> nat, top: nat, s: Net, r: int, o: VC)
    requires Halted(T, g, s) && Ranked(T, g, rank, top) && Entered(T, g)
    requires 0 <= r < |s.rs| && T.ValidVC(r, o) && o in s.rs[r].c.busy && !GoesOn(T, g, s)
    ensures T.Down(Port(r, o.pc)).Some?
    ensures var d := T.Down(Port(r, o.pc)).value;
            0 <= d.router < |s.rs| && T.ValidVC(d.router, VC(d.pc, o.vc)) && Q(s.rs[d.router].c, VC(d.pc, o.vc)) != []
  {
    var k := Holder(T, s, r, o);
    if Q(s.rs[r].c, k) == [] { TailMoves(T, g, rank, top, s, r, k); }
    FrontWaits(T, g, s, r, k);
  }

  // A flit with its output VC that cannot move has a flit in front of it.
  lemma FrontWaits(T: Topo, g: Routing, s: Net, r: int, k: VC)
    requires Halted(T, g, s) && 0 <= r < |s.rs| && T.ValidVC(r, k) && Q(s.rs[r].c, k) != [] && !Movable(T, g, s, r, k)
    requires In(s.rs[r].c, k).st.V? || In(s.rs[r].c, k).st.S?
    ensures T.Down(Port(r, In(s.rs[r].c, k).outPc)).Some?
    ensures var d := T.Down(Port(r, In(s.rs[r].c, k).outPc)).value;
            var k' := VC(d.pc, In(s.rs[r].c, k).outVc);
            0 <= d.router < |s.rs| && T.ValidVC(d.router, k') && Q(s.rs[d.router].c, k') != []
  {
    var c := s.rs[r].c;
    var o := VC(In(c, k).outPc, In(c, k).outVc);
    assert Control(T, r, c);
    assert InOk(T, r, c, k);
    var d := T.Down(Port(r, o.pc)).value;
    T.WiredAt(Port(r, o.pc), d);
    if Q(s.rs[d.router].c, VC(d.pc, o.vc)) == [] { EmptyHasCredit(T, g, s, r, o, d); }
  }

  // From a flit that cannot move there is another one in a buffer of higher rank, and so on.
  lemma {:induction false} Climbs(T: Topo, g: Routing, rank: (int, VC) -> nat, top: nat, s: Net, r: int, k: VC)
    requires Halted(T, g, s) && Ranked(T, g, rank, top) && Entered(T, g) && Admitting(T, g)
    requires 0 <= r < |s.rs| && T.ValidVC(r, k) && Q(s.rs[r].c, k) != []
    ensures GoesOn(T, g, s)
    decreases top - rank(r, k)
  {
    if !GoesOn(T, g, s) {
      assert !Movable(T, g, s, r, k);
      var ov := Wanted(T, g, rank, top, s, r, k);
      var d := T.Down(Port(r, In(s.rs[r].c, k).outPc)).value;
      assert Legal(T, g, r, s.rs[r]);
      assert Given(g, r, s.rs[r].c, k);
      assert rank(r, k) < rank(d.router, VC(d.pc, ov));
      Climbs(T, g, rank, top, s, d.router, VC(d.pc, ov));
    }
  }

  // The output VC a flit waits for, or for the credits of, leads to a buffer that is not empty.
  lemma Wanted(T: Topo, g: Routing, rank: (int, VC) -> nat, top: nat, s: Net, r: int, k: VC) returns (ov: int)
    requires Halted(T, g, s) && Ranked(T, g, rank, top) && Entered(T, g) && Admitting(T, g)
    requires 0 <= r < |s.rs| && T.ValidVC(r, k) && Q(s.rs[r].c, k) != [] && !GoesOn(T, g, s)
    ensures !In(s.rs[r].c, k).st.I? && T.Down(Port(r, In(s.rs[r].c, k).outPc)).Some?
    ensures g.admits(r, k, Current(s.rs[r].c, k), In(s.rs[r].c, k).outPc, ov)
    ensures var d := T.Down(Port(r, In(s.rs[r].c, k).outPc)).value;
            0 <= d.router < |s.rs| && T.ValidVC(d.router, VC(d.pc, ov)) && Q(s.rs[d.router].c, VC(d.pc, ov)) != []
  {
    var c := s.rs[r].c;
    var m := In(c, k);
    assert !Movable(T, g, s, r, k);
    assert Legal(T, g, r, s.rs[r]);
    assert Given(g, r, c, k);
    if m.st.R? {
      assert Control(T, r, c);
      assert InOk(T, r, c, k);
      ov :| 0 <= ov < T.nvc && g.admits(r, k, Current(c, k), m.outPc, ov);
      BeyondTaken(T, g, rank, top, s, r, VC(m.outPc, ov));
    } else {
      ov := m.outVc;
      FrontWaits(T, g, s, r, k);
    }
  }

  // ---------- the theorem ----------

  // Whatever the network with such a routing function comes to: while a flit is buffered, flits or credits
  // are under way, or some flit can move, or else a packet has been crowded out of a shared buffer ...
  lemma StuckBehindCrowded(T: Topo, g: Routing, rank: (int, VC) -> nat, top: nat, s: Net, r: int, k: VC)
    requires Closed(T, g) && Ranked(T, g, rank, top) && Entered(T, g) && Admitting(T, g) && Covered(T)
    requires LawfulReachable(T, g, s) && 0 <= r < |s.rs| && T.ValidVC(r, k) && Q(s.rs[r].c, k) != []
    ensures Quiet(s) && !GoesOn(T, g, s) ==> exists r, k :: CrowdedOut(T, s, r, k)
  {
    AlwaysLegal(T, g, s);
    AlwaysSparing(T, s);
    ReachableGood(T, s);
    if Quiet(s) && forall r, k :: !CrowdedOut(T, s, r, k) { Climbs(T, g, rank, top, s, r, k); }
  }

  // In every state the network comes to with flits in its buffers, something is under way or can move.
  ghost predicate AlwaysGoesOn(T: Topo, g: Routing) {
    forall s, r, k {:trigger LawfulReachable(T, g, s), T.ValidVC(r, k)} ::
      LawfulReachable(T, g, s) && 0 <= r < |s.rs| && T.ValidVC(r, k) && Q(s.rs[r].c, k) != [] ==>
        !Quiet(s) || GoesOn(T, g, s)
  }

  // ... which does not happen where the VCs of a port do not share a buffer, or where there is only one of
  // them, or where one process writes one packet after the other.
  lemma NeverStuck(T: Topo, g: Routing, rank: (int, VC) -> nat, top: nat)
    requires Closed(T, g) && Ranked(T, g, rank, top) && Entered(T, g) && Admitting(T, g) && Covered(T)
    requires Guarded(T, g.single)
    ensures AlwaysGoesOn(T, g)
  {
    forall s, r, k | LawfulReachable(T, g, s) && 0 <= r < |s.rs| && T.ValidVC(r, k) && Q(s.rs[r].c, k) != []
      ensures !Quiet(s) || GoesOn(T, g, s)
    {
      StuckBehindCrowded(T, g, rank, top, s, r, k);
      forall r, k ensures !CrowdedOut(T, s, r, k) { NeverCrowdedOut(T, g, s, r, k); }
    }
  }
}
