// What holds in every reachable state of the network.

module Theorems {
  import opened Wiring
  import opened Flits
  import opened Protocol
  import opened Invariant
  import opened ControlProofs
  import opened CreditProofs
  import opened LinkProofs
  import opened StepProofs
  import opened Stages
  import opened StageProofs
  import opened Runs
  import Fairness
  import SwArb

  // Credit conservation: for every wired output VC, the usable credits, the flit in the crossbar, the
  // flits on the wire, those in the downstream buffer and the credits on their way back add up to the
  // depth of the buffer, with both buffer organisations.
  lemma CreditConservation(T: Topo, s: Net, r: int, o: VC, d: Port)
    requires Reachable(T, s) && 0 <= r < |s.rs| && T.ValidVC(r, o) && T.Down(Port(r, o.pc)) == Some(d)
    ensures Sized(T, s) && T.ValidRouter(d.router)
    ensures Cr(T, s.rs[r].cred, o).num + Cr(T, s.rs[r].cred, o).rsv + InXbar(s.rs[r].c, o)
            + |OnLink(Link(s.rs[r].link, o.pc), o.vc)| + |Q(s.rs[d.router].c, VC(d.pc, o.vc))|
            + DepSum(s.rs[r].deps, o) == T.depth
    ensures 0 <= Cr(T, s.rs[r].cred, o).rsv <= T.rsv
    ensures !T.damq ==> 0 <= Cr(T, s.rs[r].cred, o).num <= T.depth - T.rsv && Cr(T, s.rs[r].cred, o).rsv == T.rsv
    ensures T.damq ==> SumCredit(T, s.rs[r].cred, o.pc, T.nvc) >= 0
  {
    ReachableGood(T, s);
    assert CreditOk(T, s, r, o);
    CreditBounds(T, s, r, o);
  }

  // What a port's virtual channels account for together, with the buffers they lead to.
  function PortTotal(T: Topo, s: Net, r: int, op: int, d: Port, n: nat): int
    requires 0 <= r < |s.rs| && 0 <= d.router < |s.rs|
  {
    if n == 0 then 0
    else PortTotal(T, s, r, op, d, n - 1) + Balance(T, s.rs[r], VC(op, n - 1)) + |Q(s.rs[d.router].c, VC(d.pc, n - 1))|
  }

  // Shared credits: over a port the shared and reserved credits, the flits in flight and in the buffers and
  // the returning credits always are num_vc times the depth of a buffer.
  lemma PortConservation(T: Topo, s: Net, r: int, op: int, d: Port)
    requires Reachable(T, s) && T.ValidRouter(r) && 0 <= r < |s.rs| && 0 <= op < T.npc[r] &&
             T.Down(Port(r, op)) == Some(d)
    ensures 0 <= d.router < |s.rs| && PortTotal(T, s, r, op, d, T.nvc) == T.nvc * T.depth
  {
    ReachableGood(T, s);
    PortTotalIs(T, s, r, op, d, T.nvc);
  }

  lemma {:induction false} PortTotalIs(T: Topo, s: Net, r: int, op: int, d: Port, n: nat)
    requires Sized(T, s) && Credits(T, s) && T.ValidRouter(r) && 0 <= r < |s.rs| && 0 <= op < T.npc[r] && n <= T.nvc
    requires T.Down(Port(r, op)) == Some(d)
    ensures PortTotal(T, s, r, op, d, n) == n * T.depth
  {
    if n > 0 {
      PortTotalIs(T, s, r, op, d, n - 1);
      assert CreditOk(T, s, r, VC(op, n - 1));
      assert n * T.depth == (n - 1) * T.depth + T.depth;
    }
  }

  // n credits of output VC o taken from a fresh port.
  function Spend(T: Topo, o: VC, n: nat): map<VC, Cred> {
    if n == 0 then map[] else DecCredit(T, Spend(T, o, n - 1), o)
  }

  lemma {:induction false} FreshSum(T: Topo, op: int, n: nat)
    ensures SumCredit(T, map[], op, n) == n * (T.depth - T.rsv)
  {
    if n > 0 {
      FreshSum(T, op, n - 1);
      assert n * (T.depth - T.rsv) == (n - 1) * (T.depth - T.rsv) + (T.depth - T.rsv);
    }
  }

  // With shared credits any one VC may take all that its port has, and its own counter goes below zero while
  // the sum does not.
  lemma {:induction false} OneVCTakesAll(T: Topo, o: VC, n: nat)
    requires T.damq && 0 <= o.vc < T.nvc && n <= T.nvc * (T.depth - T.rsv)
    ensures Cr(T, Spend(T, o, n), o) == Cred(T.depth - T.rsv - n, T.rsv)
    ensures SumCredit(T, Spend(T, o, n), o.pc, T.nvc) == T.nvc * (T.depth - T.rsv) - n
  {
    if n == 0 {
      FreshSum(T, o.pc, T.nvc);
    } else {
      OneVCTakesAll(T, o, n - 1);
      var before := Spend(T, o, n - 1);
      SumCreditSet(T, before, o, Spend(T, o, n)[o], o.pc, T.nvc);
    }
  }

  // No input buffer ever holds more than it has room for, so FlitQ::write never finds it full: the flit at
  // the end of a wire always finds room.
  lemma NoOverflow(T: Topo, s: Net, r: int, op: int, d: Port)
    requires Reachable(T, s) && 0 <= r < |s.rs| && T.Down(Port(r, op)) == Some(d) && Link(s.rs[r].link, op) != []
    ensures Sized(T, s) && T.ValidRouter(d.router)
    ensures !IsFull(T, s.rs[d.router].c, VC(d.pc, Link(s.rs[r].link, op)[0].vc))
  {
    ReachableGood(T, s);
    assert LinkOk(T, r, s.rs[r], s.now, op);
    RoomDownstream(T, s, r, op, d);
  }

  ghost predicate MapsTo(c: Ctl, k: VC, o: VC) {
    (In(c, k).st.V? || In(c, k).st.S?) && In(c, k).outPc == o.pc && In(c, k).outVc == o.vc
  }

  // An output VC is in OUT_MOD_V exactly when one input VC in state V or S maps to it, and never two do.
  lemma ExclusiveOutputVC(T: Topo, s: Net, r: int, o: VC)
    requires Reachable(T, s) && 0 <= r < |s.rs| && T.ValidVC(r, o)
    ensures o in s.rs[r].c.busy <==> exists k :: T.ValidVC(r, k) && MapsTo(s.rs[r].c, k, o)
    ensures forall k, k' ::
              T.ValidVC(r, k) && T.ValidVC(r, k') && MapsTo(s.rs[r].c, k, o) && MapsTo(s.rs[r].c, k', o) ==> k == k'
  {
    ReachableGood(T, s);
    var c := s.rs[r].c;
    assert Control(T, r, c);
    assert OutOk(T, r, c, o);
    forall k | T.ValidVC(r, k) && MapsTo(c, k, o) ensures o in c.owner && c.owner[o] == k {
      assert InOk(T, r, c, k);
    }
    if o in c.busy { assert MapsTo(c, c.owner[o], o); }
  }

  // Every crossbar output that is taken belongs to the one input port that waits to send to it; what
  // waits there is a flit in front of its buffer, whose input VC is in state S.
  lemma ExclusiveCrossbar(T: Topo, s: Net, r: int, ip: int, ip': int)
    requires Reachable(T, s) && T.ValidRouter(r) && 0 <= r < |s.rs| && 0 <= ip < T.npc[r] && 0 <= ip' < T.npc[r]
    requires Waiting(s.rs[r].c, ip) != INVALID_VC && Waiting(s.rs[r].c, ip') != INVALID_VC
    ensures var c := s.rs[r].c;
            var k := VC(ip, Waiting(c, ip));
            var k' := VC(ip', Waiting(c, ip'));
            && In(c, k).st.S? && Q(c, k) != [] && In(c, k).outPc in c.taken
            && (In(c, k).outPc == In(c, k').outPc ==> ip == ip')
  {
    ReachableGood(T, s);
    var c := s.rs[r].c;
    assert Control(T, r, c);
    assert WaitOk(T, r, c, ip) && WaitOk(T, r, c, ip');
    assert InOk(T, r, c, VC(ip, Waiting(c, ip))) && InOk(T, r, c, VC(ip', Waiting(c, ip')));
    assert XOk(T, r, c, In(c, VC(ip, Waiting(c, ip))).outPc);
  }

  // A pending switch request agrees with the mapping of its input VC, and is for a flit that is there.
  lemma RequestsAgree(T: Topo, s: Net, r: int, k: VC)
    requires Reachable(T, s) && 0 <= r < |s.rs| && T.ValidVC(r, k) && k in s.rs[r].c.sw
    ensures var c := s.rs[r].c;
            && MapsTo(c, k, VC(c.sw[k].outPc, c.sw[k].outVc)) && Q(c, k) != [] && Waiting(c, k.pc) != k.vc
            && (Q(c, k)[0].IsHead() <==> In(c, k).st.V?)
  {
    ReachableGood(T, s);
    var c := s.rs[r].c;
    assert Control(T, r, c);
    assert InOk(T, r, c, k) && Wormhole(Here(c, k));
    WormholeCut(Got(c, k), Q(c, k));
  }

  // In every round of the switch arbiter, at any point of any run, each request is for an output VC that its
  // input VC holds alone, as the fairness theorem has it.
  lemma RoundsHoused(T: Topo, s: Net, r: int, spec: bool)
    requires Inv(T, s) && 0 <= r < |s.rs|
    ensures var e := SwArb.RoundOf(SwArb.ViewOf(T, r, s.rs[r], s.now), s.rs[r].c.sw, spec);
            Fairness.Housed(e, T.npc[r], T.nvc)
  {
    var c := s.rs[r].c;
    var e := SwArb.RoundOf(SwArb.ViewOf(T, r, s.rs[r], s.now), c.sw, spec);
    assert Control(T, r, c);
    forall k, k' | T.ValidVC(r, k) && T.ValidVC(r, k') && e.asks(k) && e.asks(k') && k != k' && e.out(k) == e.out(k')
      ensures In(c, k).outVc != In(c, k').outVc
    {
      assert InOk(T, r, c, k) && InOk(T, r, c, k');
    }
    var ov := k => In(c, k).outVc;
    forall k | Fairness.Asker(e, T.npc[r], T.nvc, k) ensures 0 <= e.out(k) < T.npc[r] && 0 <= ov(k) < T.nvc {
      assert InOk(T, r, c, k);
    }
    assert Fairness.HousedBy(e, T.npc[r], T.nvc, ov);
  }

  // The VC arbiter's queue holds exactly the input VCs in state R, each once.
  lemma QueueHoldsRequests(T: Topo, s: Net, r: int, k: VC)
    requires Reachable(T, s) && 0 <= r < |s.rs| && T.ValidVC(r, k)
    ensures In(s.rs[r].c, k).st.R? <==> exists i :: 0 <= i < |s.rs[r].c.reqQ| && s.rs[r].c.reqQ[i].0 == k
    ensures forall i, j :: 0 <= i < j < |s.rs[r].c.reqQ| ==> s.rs[r].c.reqQ[i].0 != s.rs[r].c.reqQ[j].0
  {
    ReachableGood(T, s);
    var c := s.rs[r].c;
    assert Control(T, r, c);
    assert InOk(T, r, c, k);
    if In(c, k).st.R? {
      var i :| 0 <= i < |c.reqQ| && c.reqQ[i] == (k, In(c, k).outPc);
      assert c.reqQ[i].0 == k;
    }
  }

  // A wired channel loses, repeats and reorders nothing: what was sent on an output VC is what was read
  // from the input VC it feeds, then what waits there, then what is on the wire.
  lemma LosslessChannel(T: Topo, s: Net, r: int, o: VC, d: Port)
    requires Reachable(T, s) && 0 <= r < |s.rs| && T.ValidVC(r, o) && T.Down(Port(r, o.pc)) == Some(d)
    ensures Sized(T, s) && T.ValidRouter(d.router)
    ensures Sent(s.rs[r].c, o) ==
              Got(s.rs[d.router].c, VC(d.pc, o.vc)) + Q(s.rs[d.router].c, VC(d.pc, o.vc))
              + OnLink(Link(s.rs[r].link, o.pc), o.vc)
    ensures Wormhole(Sent(s.rs[r].c, o))
  {
    ReachableGood(T, s);
    T.WiredAt(Port(r, o.pc), d);
    assert StreamOk(T, s, d.router, VC(d.pc, o.vc));
    assert Control(T, r, s.rs[r].c);
    assert OutOk(T, r, s.rs[r].c, o);
  }

  // Ejection ports included, every output VC carries whole packets in flit order, never interleaved.
  lemma WholePackets(T: Topo, s: Net, r: int, o: VC, i: int)
    requires Reachable(T, s) && 0 <= r < |s.rs| && T.ValidVC(r, o) && 0 <= i < |Sent(s.rs[r].c, o)| - 1
    ensures var a := Sent(s.rs[r].c, o)[i];
            var b := Sent(s.rs[r].c, o)[i + 1];
            if a.IsTail() then b.IsHead() else !b.IsHead() && b.pkt == a.pkt && b.id == a.id + 1
  {
    ReachableGood(T, s);
    assert Control(T, r, s.rs[r].c);
    assert OutOk(T, r, s.rs[r].c, o);
    assert Joint(Sent(s.rs[r].c, o), i);
  }

  // Router::checkBufferIntegrity, with the flit it saw last on the input VC.
  predicate BufferIntegrity(last: Option<Flit>, f: Flit) {
    f.IsHead() || (last.Some? && last.value.pkt == f.pkt && last.value.id == f.id - 1)
  }

  // The check on the flit stageST reads next never fails.
  lemma IntegrityHolds(T: Topo, s: Net, r: int, k: VC)
    requires Reachable(T, s) && 0 <= r < |s.rs| && T.ValidVC(r, k) && Q(s.rs[r].c, k) != []
    ensures var got := Got(s.rs[r].c, k);
            BufferIntegrity(if got == [] then None else Some(got[|got| - 1]), Q(s.rs[r].c, k)[0])
  {
    ReachableGood(T, s);
    assert Control(T, r, s.rs[r].c);
    assert Wormhole(Here(s.rs[r].c, k));
    WormholeCut(Got(s.rs[r].c, k), Q(s.rs[r].c, k));
  }

  // Wire pipelining: when router_sim serves a wire, its oldest flit leaves exactly when the latency of the
  // wire has passed since stageST stored it; the flits behind it were stored in distinct, later cycles.
  lemma WireLatency(T: Topo, s: Net, r: int, op: int)
    requires Reachable(T, s) && 0 <= r < |s.rs| && Link(s.rs[r].link, op) != [] && s.rs[r].ran < s.now
    ensures Due(T, s, r, op) <==> s.now - Link(s.rs[r].link, op)[0].clk == T.Lat(Port(r, op))
    ensures |Link(s.rs[r].link, op)| <= T.Lat(Port(r, op))
    ensures forall i, j :: 0 <= i < j < |Link(s.rs[r].link, op)| ==>
              Link(s.rs[r].link, op)[i].clk < Link(s.rs[r].link, op)[j].clk
  {
    ReachableGood(T, s);
    var l := Link(s.rs[r].link, op);
    assert LinkOk(T, r, s.rs[r], s.now, op) && InsideOk(T, r, s.rs[r]) && Rested(T, r, s.rs[r], s.now);
    BusyWireKeepsRouterAwake(T, r, s.rs[r], s.now, op);
    ExactLatency(T, s, r, op);
    ClocksSpread(l, LastLT(s.rs[r], op), s.now, T.Lat(Port(r, op)), T.nvc, GrantClk(s.rs[r], op), |l| - 1);
  }

  // m_num_flits_inside is exact, so a router never sleeps over a flit.
  lemma FlitsInsideExact(T: Topo, s: Net, r: int)
    requires Reachable(T, s) && 0 <= r < |s.rs|
    ensures Sized(T, s)
    ensures s.rs[r].inside == SumQ(s.rs[r].c.q, T.npc[r], T.nvc) + SumLink(s.rs[r].link, T.npc[r])
  {
    ReachableGood(T, s);
    assert InsideOk(T, r, s.rs[r]);
  }
}
