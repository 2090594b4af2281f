// Router::router_sim as a function: the stages in the order the program runs them, each a fold of the
// actions over its ports or requests.

module Stages {
  import opened Wiring
  import opened Flits
  import opened Protocol
  import opened Invariant
  import opened ControlProofs
  import opened StepProofs

  // What the program gets from elsewhere while one router runs one cycle: the routing function's port for
  // the head flit in front of an input VC (None while that flit is in its first cycle in this router),
  // the routing function's verdict on an output VC, and the grants of the switch arbiter.
  datatype Choice = Choice(
    route: VC -> Option<int>,
    admit: (int, VC, int) -> bool,
    sa: seq<VC>,
    ssa: seq<VC>)

  // ---------- incCredit ----------

  function IncAll(T: Topo, s: Net, r: int): (s': Net)
    requires Sized(T, s) && 0 <= r < |s.rs|
    ensures Sized(T, s')
    decreases |s.rs[r].deps|
  {
    if s.rs[r].deps != [] && s.rs[r].deps[0].clk <= s.now then IncAll(T, Upd(s, r, Inc(T, s.rs[r])), r) else s
  }

  // ---------- stageLT ----------

  function LTUpto(T: Topo, s: Net, r: int, n: nat): (s': Net)
    requires Sized(T, s) && 0 <= r < |s.rs|
    ensures Sized(T, s')
  {
    if n == 0 then s else LTPort(T, LTUpto(T, s, r, n - 1), r, n - 1)
  }

  // ---------- stageST ----------

  function STUpto(T: Topo, s: Net, r: int, n: nat): (s': Net)
    requires Sized(T, s) && 0 <= r < |s.rs|
    ensures Sized(T, s')
  {
    if n == 0 then s
    else
      var s1 := STUpto(T, s, r, n - 1);
      var c := s1.rs[r].c;
      if Waiting(c, n - 1) == INVALID_VC || Q(c, VC(n - 1, Waiting(c, n - 1))) == [] then s1
      else STPort(T, s1, r, n - 1)
  }

  // ---------- stageSA, stageSSA ----------

  // SwArb::getFreeInPorts: the input VCs without a request, row by row.
  function FreeRow(sw: map<VC, SwReq>, pc: int, n: nat): seq<VC> {
    if n == 0 then []
    else FreeRow(sw, pc, n - 1) + (if VC(pc, n - 1) in sw then [] else [VC(pc, n - 1)])
  }

  function FreeKeys(sw: map<VC, SwReq>, n: nat, nvc: nat): seq<VC> {
    if n == 0 then [] else FreeKeys(sw, n - 1, nvc) + FreeRow(sw, n - 1, nvc)
  }

  predicate Asks(c: Ctl, k: VC) { Q(c, k) != [] && !Q(c, k)[0].IsHead() && In(c, k).st.S? }

  function AskUpto(s: Net, r: int, ks: seq<VC>, n: nat): (s': Net)
    requires 0 <= r < |s.rs| && n <= |ks|
    ensures |s'.rs| == |s.rs|
  {
    if n == 0 then s
    else
      var s1 := AskUpto(s, r, ks, n - 1);
      if Asks(s1.rs[r].c, ks[n - 1]) then Upd(s1, r, s1.rs[r].(c := Request(s1.rs[r].c, ks[n - 1], s.now))) else s1
  }

  function Ask(T: Topo, s: Net, r: int): (s': Net)
    requires Sized(T, s) && 0 <= r < |s.rs|
    ensures Sized(T, s')
  {
    var ks := FreeKeys(s.rs[r].c.sw, T.npc[r], T.nvc);
    AskUpto(s, r, ks, |ks|)
  }

  // The grants are requests the arbiter may grant, at most one for each input port and each output port.
  ghost predicate GrantsOk(T: Topo, r: int, rs: RouterState, now: int, spec: bool, gs: seq<VC>) {
    && (forall i {:trigger GrantOk(T, r, rs, gs[i])} :: 0 <= i < |gs| ==> GrantOk(T, r, rs, gs[i]))
    && (forall i, j :: 0 <= i < j < |gs| ==>
          gs[i].pc != gs[j].pc && gs[i] in rs.c.sw && gs[j] in rs.c.sw && rs.c.sw[gs[i]].outPc != rs.c.sw[gs[j]].outPc)
    && (spec ==> forall i :: 0 <= i < |gs| ==>
          Q(rs.c, gs[i]) != [] && Q(rs.c, gs[i])[0].IsHead() && gs[i] in rs.c.sw && rs.c.sw[gs[i]].clk == now)
  }

  function GrantUpto(T: Topo, s: Net, r: int, gs: seq<VC>, n: nat): (s': Net)
    requires Sized(T, s) && 0 <= r < |s.rs| && n <= |gs|
    ensures Sized(T, s')
  {
    if n == 0 then s
    else
      var s1 := GrantUpto(T, s, r, gs, n - 1);
      var rs := s1.rs[r];
      if gs[n - 1] in rs.c.sw && Q(rs.c, gs[n - 1]) != [] then Upd(s1, r, Take(T, r, rs, gs[n - 1], s.now)) else s1
  }

  // ---------- stageVA ----------

  // The first output VC of port op, from ov on, that is free and that the routing function admits for k.
  function FirstVC(T: Topo, c: Ctl, admit: (int, VC, int) -> bool, k: VC, op: int, ov: nat): Option<int>
    decreases T.nvc - ov
  {
    if ov >= T.nvc then None
    else if VC(op, ov) !in c.busy && admit(ov, k, op) then Some(ov)
    else FirstVC(T, c, admit, k, op, ov + 1)
  }

  // VCArbFCFS::grant from request i on, first come first served.
  function VAFrom(T: Topo, s: Net, r: int, admit: (int, VC, int) -> bool, i: nat): (s': Net)
    requires Sized(T, s) && 0 <= r < |s.rs| && i <= |s.rs[r].c.reqQ|
    ensures Sized(T, s')
    decreases |s.rs[r].c.reqQ| - i
  {
    var c := s.rs[r].c;
    if i == |c.reqQ| then s
    else
      match FirstVC(T, c, admit, c.reqQ[i].0, c.reqQ[i].1, 0)
      case None => VAFrom(T, s, r, admit, i + 1)
      case Some(ov) => VAFrom(T, Upd(s, r, s.rs[r].(c := Allocate(c, i, ov, s.now))), r, admit, i)
  }

  // ---------- stageRC ----------

  function RouteKey(s: Net, r: int, route: VC -> Option<int>, k: VC): (s': Net)
    requires 0 <= r < |s.rs|
    ensures |s'.rs| == |s.rs|
  {
    var c := s.rs[r].c;
    if In(c, k).st.I? && Q(c, k) != [] && Q(c, k)[0].IsHead() && route(k).Some?
    then Upd(s, r, s.rs[r].(c := Route(c, k, route(k).value)))
    else s
  }

  function RouteRow(s: Net, r: int, route: VC -> Option<int>, pc: int, n: nat): (s': Net)
    requires 0 <= r < |s.rs|
    ensures |s'.rs| == |s.rs|
  {
    if n == 0 then s else RouteKey(RouteRow(s, r, route, pc, n - 1), r, route, VC(pc, n - 1))
  }

  function RouteUpto(T: Topo, s: Net, r: int, route: VC -> Option<int>, n: nat): (s': Net)
    requires Sized(T, s) && 0 <= r < |s.rs|
    ensures Sized(T, s')
  {
    if n == 0 then s else RouteRow(RouteUpto(T, s, r, route, n - 1), r, route, n - 1, T.nvc)
  }

  // What stageRC asserts of the routing function.
  ghost predicate RouteOk(T: Topo, r: int, route: VC -> Option<int>) {
    forall k :: route(k).Some? ==> T.Routable(r, route(k).value)
  }

  // ---------- router_sim ----------

  function Front(T: Topo, s: Net, r: int): (s': Net)
    requires Sized(T, s) && 0 <= r < |s.rs|
    ensures Sized(T, s')
  {
    Ask(T, STUpto(T, LTUpto(T, IncAll(T, s, r), r, T.npc[r]), r, T.npc[r]), r)
  }

  function Middle(T: Topo, s: Net, r: int, ch: Choice): (s': Net)
    requires Sized(T, s) && 0 <= r < |s.rs|
    ensures Sized(T, s')
  {
    var s1 := GrantUpto(T, s, r, ch.sa, |ch.sa|);
    VAFrom(T, if T.lookahead then RouteUpto(T, s1, r, ch.route, T.npc[r]) else s1, r, ch.admit, 0)
  }

  function Back(T: Topo, s: Net, r: int, ch: Choice): (s': Net)
    requires Sized(T, s) && 0 <= r < |s.rs|
    ensures Sized(T, s')
  {
    var s1 := if T.spec then GrantUpto(T, s, r, ch.ssa, |ch.ssa|) else s;
    var s2 := if T.lookahead then s1 else RouteUpto(T, s1, r, ch.route, T.npc[r]);
    Upd(s2, r, s2.rs[r].(ran := s.now))
  }

  function RouterSim(T: Topo, s: Net, r: int, ch: Choice): Net
    requires Sized(T, s) && 0 <= r < |s.rs|
  {
    Back(T, Middle(T, Front(T, s, r), r, ch), r, ch)
  }

  // The arbiter's grants fit the states in which it gives them.
  ghost predicate ChoiceOk(T: Topo, s: Net, r: int, ch: Choice)
    requires Sized(T, s) && 0 <= r < |s.rs|
  {
    && RouteOk(T, r, ch.route)
    && GrantsOk(T, r, Front(T, s, r).rs[r], s.now, false, ch.sa)
    && (T.spec ==> GrantsOk(T, r, Middle(T, Front(T, s, r), r, ch).rs[r], s.now, true, ch.ssa))
  }
}
