// Every action of a router keeps its control invariant.

module ControlProofs {
  import opened Wiring
  import opened Flits
  import opened Protocol
  import opened Invariant

  // ---------- a flit enters a buffer ----------

  lemma EnqueueIn(T: Topo, r: int, c: Ctl, k: VC, f: Flit, k': VC)
    requires InOk(T, r, c, k')
    ensures InOk(T, r, Enqueue(c, k, f), k')
  {}

  lemma EnqueueRest(T: Topo, r: int, c: Ctl, k: VC, f: Flit)
    requires T.ValidRouter(r) && Control(T, r, c)
    ensures forall o | T.ValidVC(r, o) :: OutOk(T, r, Enqueue(c, k, f), o)
    ensures forall p | 0 <= p < T.npc[r] :: XOk(T, r, Enqueue(c, k, f), p) && WaitOk(T, r, Enqueue(c, k, f), p)
    ensures ReqOk(T, r, Enqueue(c, k, f))
  {
    var x := Enqueue(c, k, f);
    forall o | T.ValidVC(r, o) ensures OutOk(T, r, x, o) { assert OutOk(T, r, c, o); }
    forall p | 0 <= p < T.npc[r] ensures XOk(T, r, x, p) && WaitOk(T, r, x, p) {
      assert XOk(T, r, c, p) && WaitOk(T, r, c, p);
    }
  }

  lemma EnqueueControl(T: Topo, r: int, c: Ctl, k: VC, f: Flit)
    requires T.ValidRouter(r) && Control(T, r, c) && T.ValidVC(r, k) && CanExtend(Here(c, k), f)
    ensures Control(T, r, Enqueue(c, k, f))
  {
    var x := Enqueue(c, k, f);
    forall k' | T.ValidVC(r, k') ensures InOk(T, r, x, k') { EnqueueIn(T, r, c, k, f, k'); }
    forall k' | T.ValidVC(r, k') ensures Wormhole(Here(x, k')) {
      assert Wormhole(Here(c, k'));
      if k' == k {
        assert Here(x, k) == Here(c, k) + [f];
        WormholeAppend(Here(c, k), f);
      }
    }
    EnqueueRest(T, r, c, k, f);
  }

  // ---------- a flit crosses the switch ----------

  lemma TraverseSelf(T: Topo, r: int, c: Ctl, ip: int)
    requires Waiting(c, ip) != INVALID_VC && Q(c, VC(ip, Waiting(c, ip))) != []
    requires WaitOk(T, r, c, ip) && InOk(T, r, c, VC(ip, Waiting(c, ip)))
    ensures InOk(T, r, Traverse(c, ip), VC(ip, Waiting(c, ip)))
  {}

  lemma TraverseOther(T: Topo, r: int, c: Ctl, ip: int, k': VC)
    requires Waiting(c, ip) != INVALID_VC && Q(c, VC(ip, Waiting(c, ip))) != []
    requires WaitOk(T, r, c, ip) && InOk(T, r, c, VC(ip, Waiting(c, ip)))
    requires T.ValidVC(r, k') && k' != VC(ip, Waiting(c, ip)) && InOk(T, r, c, k')
    ensures InOk(T, r, Traverse(c, ip), k')
  {}

  lemma TraverseOut(T: Topo, r: int, c: Ctl, ip: int, o': VC)
    requires Waiting(c, ip) != INVALID_VC && Q(c, VC(ip, Waiting(c, ip))) != []
    requires WaitOk(T, r, c, ip) && InOk(T, r, c, VC(ip, Waiting(c, ip)))
    requires Wormhole(Here(c, VC(ip, Waiting(c, ip))))
    requires OutOk(T, r, c, o')
    ensures OutOk(T, r, Traverse(c, ip), o')
  {
    var k := VC(ip, Waiting(c, ip));
    WormholeCut(Got(c, k), Q(c, k));
    if o' == VC(In(c, k).outPc, In(c, k).outVc) {
      WormholeAppend(Sent(c, o'), Q(c, k)[0]);
    }
  }

  lemma TraversePorts(T: Topo, r: int, c: Ctl, ip: int, p: int)
    requires Waiting(c, ip) != INVALID_VC && Q(c, VC(ip, Waiting(c, ip))) != []
    requires WaitOk(T, r, c, ip) && InOk(T, r, c, VC(ip, Waiting(c, ip)))
    requires XOk(T, r, c, p) && WaitOk(T, r, c, p)
    ensures XOk(T, r, Traverse(c, ip), p) && WaitOk(T, r, Traverse(c, ip), p)
  {}

  lemma TraverseControl(T: Topo, r: int, c: Ctl, ip: int)
    requires T.ValidRouter(r) && Control(T, r, c) && 0 <= ip < T.npc[r]
    requires Waiting(c, ip) != INVALID_VC && Q(c, VC(ip, Waiting(c, ip))) != []
    ensures Control(T, r, Traverse(c, ip))
  {
    var x := Traverse(c, ip);
    var k := VC(ip, Waiting(c, ip));
    assert WaitOk(T, r, c, ip) && InOk(T, r, c, k) && Wormhole(Here(c, k));
    forall k' | T.ValidVC(r, k') ensures InOk(T, r, x, k') {
      if k' == k { TraverseSelf(T, r, c, ip); } else { TraverseOther(T, r, c, ip, k'); }
    }
    forall o | T.ValidVC(r, o) ensures OutOk(T, r, x, o) { TraverseOut(T, r, c, ip, o); }
    forall p | 0 <= p < T.npc[r] ensures XOk(T, r, x, p) && WaitOk(T, r, x, p) { TraversePorts(T, r, c, ip, p); }
    forall k' | T.ValidVC(r, k') ensures Wormhole(Here(x, k')) { TraverseHere(c, ip, k'); }
    TraverseReq(T, r, c, ip);
  }

  lemma TraverseHere(c: Ctl, ip: int, k': VC)
    requires Q(c, VC(ip, Waiting(c, ip))) != []
    ensures Here(Traverse(c, ip), k') == Here(c, k')
  {}

  lemma TraverseReq(T: Topo, r: int, c: Ctl, ip: int)
    requires Q(c, VC(ip, Waiting(c, ip))) != []
    requires ReqOk(T, r, c) && In(c, VC(ip, Waiting(c, ip))).st.S?
    ensures ReqOk(T, r, Traverse(c, ip))
  {}

  // ---------- switch requests and grants ----------

  lemma RequestControl(T: Topo, r: int, c: Ctl, k: VC, now: int)
    requires T.ValidRouter(r) && Control(T, r, c) && T.ValidVC(r, k)
    requires In(c, k).st.S? && Waiting(c, k.pc) != k.vc && Q(c, k) != []
    ensures Control(T, r, Request(c, k, now))
  {
    var x := Request(c, k, now);
    assert InOk(T, r, c, k);
    forall k' | T.ValidVC(r, k') ensures InOk(T, r, x, k') { RequestIn(T, r, c, k, now, k'); }
    forall o | T.ValidVC(r, o) ensures OutOk(T, r, x, o) { assert OutOk(T, r, c, o); }
    forall p | 0 <= p < T.npc[r] ensures XOk(T, r, x, p) && WaitOk(T, r, x, p) {
      assert XOk(T, r, c, p) && WaitOk(T, r, c, p);
    }
    forall k' | T.ValidVC(r, k') ensures Wormhole(Here(x, k')) { assert Here(x, k') == Here(c, k'); }
  }

  lemma RequestIn(T: Topo, r: int, c: Ctl, k: VC, now: int, k': VC)
    requires In(c, k).st.S? && Waiting(c, k.pc) != k.vc && Q(c, k) != [] && InOk(T, r, c, k')
    ensures InOk(T, r, Request(c, k, now), k')
  {}

  // What the switch arbiter checks before it grants.
  ghost predicate Grantable(c: Ctl, k: VC) {
    k in c.sw && Waiting(c, k.pc) == INVALID_VC && c.sw[k].outPc !in c.taken
  }

  lemma GrantSelf(T: Topo, r: int, c: Ctl, k: VC)
    requires Grantable(c, k) && T.ValidVC(r, k) && InOk(T, r, c, k) && Wormhole(Here(c, k))
    ensures InOk(T, r, Grant(c, k), k)
    ensures Q(c, k)[0].IsHead() <==> In(c, k).st.V?
  {
    WormholeCut(Got(c, k), Q(c, k));
  }

  lemma GrantOther(T: Topo, r: int, c: Ctl, k: VC, k': VC)
    requires Grantable(c, k) && InOk(T, r, c, k) && XOk(T, r, c, In(c, k).outPc)
    requires T.ValidVC(r, k') && k' != k && InOk(T, r, c, k')
    ensures InOk(T, r, Grant(c, k), k')
  {}

  lemma GrantOut(T: Topo, r: int, c: Ctl, k: VC, o: VC)
    requires Grantable(c, k) && InOk(T, r, c, k) && OutOk(T, r, c, o)
    ensures OutOk(T, r, Grant(c, k), o)
  {}

  lemma GrantPorts(T: Topo, r: int, c: Ctl, k: VC, p: int)
    requires Grantable(c, k) && T.ValidVC(r, k) && InOk(T, r, c, k) && Wormhole(Here(c, k))
    requires XOk(T, r, c, p) && WaitOk(T, r, c, p)
    ensures XOk(T, r, Grant(c, k), p) && WaitOk(T, r, Grant(c, k), p)
  {
    WormholeCut(Got(c, k), Q(c, k));
  }

  lemma GrantControl(T: Topo, r: int, c: Ctl, k: VC)
    requires T.ValidRouter(r) && Control(T, r, c) && Grantable(c, k) && T.ValidVC(r, k)
    ensures Q(c, k) != [] && Control(T, r, Grant(c, k))
  {
    assert InOk(T, r, c, k) && Wormhole(Here(c, k)) && XOk(T, r, c, In(c, k).outPc);
    var x := Grant(c, k);
    forall k' | T.ValidVC(r, k') ensures InOk(T, r, x, k') {
      if k' == k { GrantSelf(T, r, c, k); } else { GrantOther(T, r, c, k, k'); }
    }
    forall o | T.ValidVC(r, o) ensures OutOk(T, r, x, o) { GrantOut(T, r, c, k, o); }
    forall p | 0 <= p < T.npc[r] ensures XOk(T, r, x, p) && WaitOk(T, r, x, p) { GrantPorts(T, r, c, k, p); }
    forall k' | T.ValidVC(r, k') ensures Wormhole(Here(x, k')) { assert Here(x, k') == Here(c, k'); }
    assert ReqOk(T, r, x);
  }

  // ---------- output VC allocation ----------

  // What the VC arbiter checks before it allocates output VC ov to its i-th request.
  ghost predicate Allocatable(T: Topo, c: Ctl, i: int, ov: int) {
    0 <= i < |c.reqQ| && 0 <= ov < T.nvc && VC(c.reqQ[i].1, ov) !in c.busy
  }

  lemma AllocateSelf(T: Topo, r: int, c: Ctl, i: nat, ov: int, now: int)
    requires Allocatable(T, c, i, ov) && ReqOk(T, r, c)
    requires InOk(T, r, c, c.reqQ[i].0) && OutOk(T, r, c, VC(c.reqQ[i].1, ov))
    ensures InOk(T, r, Allocate(c, i, ov, now), c.reqQ[i].0)
  {}

  lemma AllocateOther(T: Topo, r: int, c: Ctl, i: nat, ov: int, now: int, k': VC)
    requires Allocatable(T, c, i, ov) && ReqOk(T, r, c)
    requires k' != c.reqQ[i].0 && InOk(T, r, c, k') && OutOk(T, r, c, VC(c.reqQ[i].1, ov))
    ensures InOk(T, r, Allocate(c, i, ov, now), k')
  {
    StillQueued(c, i, ov, now, (k', In(c, k').outPc));
  }

  lemma StillQueued(c: Ctl, i: nat, ov: int, now: int, e: (VC, int))
    requires i < |c.reqQ| && c.reqQ[i].0 != e.0
    ensures e in c.reqQ ==> e in Allocate(c, i, ov, now).reqQ
  {
    if e in c.reqQ {
      var j :| 0 <= j < |c.reqQ| && c.reqQ[j] == e;
      assert Allocate(c, i, ov, now).reqQ[if j < i then j else j - 1] == e;
    }
  }

  lemma AllocateOut(T: Topo, r: int, c: Ctl, i: nat, ov: int, now: int, o: VC)
    requires Allocatable(T, c, i, ov) && ReqOk(T, r, c) && InOk(T, r, c, c.reqQ[i].0) && OutOk(T, r, c, o)
    ensures OutOk(T, r, Allocate(c, i, ov, now), o)
  {}

  lemma AllocatePorts(T: Topo, r: int, c: Ctl, i: nat, ov: int, now: int, p: int)
    requires Allocatable(T, c, i, ov) && ReqOk(T, r, c) && XOk(T, r, c, p) && WaitOk(T, r, c, p)
    ensures XOk(T, r, Allocate(c, i, ov, now), p) && WaitOk(T, r, Allocate(c, i, ov, now), p)
  {}

  lemma AllocateReq(T: Topo, r: int, c: Ctl, i: nat, ov: int, now: int)
    requires Allocatable(T, c, i, ov) && ReqOk(T, r, c)
    ensures ReqOk(T, r, Allocate(c, i, ov, now))
  {}

  lemma AllocateControl(T: Topo, r: int, c: Ctl, i: nat, ov: int, now: int)
    requires T.ValidRouter(r) && Control(T, r, c) && Allocatable(T, c, i, ov)
    ensures Control(T, r, Allocate(c, i, ov, now))
  {
    var x := Allocate(c, i, ov, now);
    assert InOk(T, r, c, c.reqQ[i].0) && OutOk(T, r, c, VC(c.reqQ[i].1, ov));
    forall k' | T.ValidVC(r, k') ensures InOk(T, r, x, k') {
      if k' == c.reqQ[i].0 { AllocateSelf(T, r, c, i, ov, now); } else { AllocateOther(T, r, c, i, ov, now, k'); }
    }
    forall o | T.ValidVC(r, o) ensures OutOk(T, r, x, o) { AllocateOut(T, r, c, i, ov, now, o); }
    forall p | 0 <= p < T.npc[r] ensures XOk(T, r, x, p) && WaitOk(T, r, x, p) {
      AllocatePorts(T, r, c, i, ov, now, p);
    }
    forall k' | T.ValidVC(r, k') ensures Wormhole(Here(x, k')) { assert Here(x, k') == Here(c, k'); }
    AllocateReq(T, r, c, i, ov, now);
  }

  // ---------- routing ----------

  lemma RouteIn(T: Topo, r: int, c: Ctl, k: VC, op: int, k': VC)
    requires In(c, k).st.I? && Q(c, k) != [] && T.Routable(r, op) && InOk(T, r, c, k) && InOk(T, r, c, k')
    ensures InOk(T, r, Route(c, k, op), k')
  {
    var x := Route(c, k, op);
    if k' == k {
      assert x.reqQ[|c.reqQ|] == (k, op);
    } else if In(c, k').st.R? {
      var j :| 0 <= j < |c.reqQ| && c.reqQ[j] == (k', In(c, k').outPc);
      assert x.reqQ[j] == c.reqQ[j];
    }
  }

  lemma RouteRest(T: Topo, r: int, c: Ctl, k: VC, op: int)
    requires T.ValidRouter(r) && Control(T, r, c) && T.ValidVC(r, k) && In(c, k).st.I?
    ensures forall o | T.ValidVC(r, o) :: OutOk(T, r, Route(c, k, op), o)
    ensures forall p | 0 <= p < T.npc[r] :: XOk(T, r, Route(c, k, op), p) && WaitOk(T, r, Route(c, k, op), p)
    ensures ReqOk(T, r, Route(c, k, op))
  {
    var x := Route(c, k, op);
    forall o | T.ValidVC(r, o) ensures OutOk(T, r, x, o) { assert OutOk(T, r, c, o); }
    forall p | 0 <= p < T.npc[r] ensures XOk(T, r, x, p) && WaitOk(T, r, x, p) {
      assert XOk(T, r, c, p) && WaitOk(T, r, c, p);
    }
  }

  lemma RouteControl(T: Topo, r: int, c: Ctl, k: VC, op: int)
    requires T.ValidRouter(r) && Control(T, r, c) && T.ValidVC(r, k)
    requires In(c, k).st.I? && Q(c, k) != [] && T.Routable(r, op)
    ensures Control(T, r, Route(c, k, op))
  {
    var x := Route(c, k, op);
    assert InOk(T, r, c, k);
    forall k' | T.ValidVC(r, k') ensures InOk(T, r, x, k') { RouteIn(T, r, c, k, op, k'); }
    forall k' | T.ValidVC(r, k') ensures Wormhole(Here(x, k')) { assert Here(x, k') == Here(c, k'); }
    RouteRest(T, r, c, k, op);
  }
}
