// router_sim taken apart into small changes, so that whatever every small change keeps holds in every run.

module Changes {
  import opened Wiring
  import opened Flits
  import opened Protocol
  import opened Invariant
  import opened ControlProofs
  import opened StepProofs
  import opened Stages
  import opened StageProofs
  import opened Runs

  // A routing function: the input VCs a packet may come to, the output ports it gives the packet there, and
  // the output VCs it admits for it. And whether a network interface has one process for its port, which
  // begins a packet only when it has written the one before (NI_INPUT_TYPE_PER_PC), or one for each VC.
  datatype Routing = Routing(
    may: (int, VC, nat) -> bool,
    out: (int, VC, nat, int) -> bool,
    admits: (int, VC, nat, int, int) -> bool,
    single: bool)

  // Anything goes.
  const FREE := Routing((_, _, _) => true, (_, _, _, _) => true, (_, _, _, _, _) => true, false)

  // One change of a router that runs.
  datatype Change =
    | Credited                      // incCredit takes the oldest deposit
    | Served(op: int)               // stageLT serves a wire
    | Crossed(ip: int)              // stageST serves an input port
    | Asked(k: VC)                  // stageSA adds a switch request
    | Taken(k: VC)                  // stageSA and stageSSA take a grant
    | Allocated(i: int, ov: int)    // stageVA grants an output VC
    | Routed(k: VC, op: int)        // stageRC routes a head flit
    | Finished                      // router_sim returns

  ghost predicate Allowed(T: Topo, s: Net, r: int, x: Change)
    requires Sized(T, s) && 0 <= r < |s.rs|
  {
    var c := s.rs[r].c;
    match x
    case Credited => s.rs[r].deps != [] && s.rs[r].deps[0].clk <= s.now
    case Served(op) => 0 <= op < T.npc[r]
    case Crossed(ip) => 0 <= ip < T.npc[r] && Waiting(c, ip) != INVALID_VC && Q(c, VC(ip, Waiting(c, ip))) != []
    case Asked(k) => T.ValidVC(r, k) && Asks(c, k)
    case Taken(k) => GrantOk(T, r, s.rs[r], k) && Q(c, k) != []
    case Allocated(i, ov) => Allocatable(T, c, i, ov)
    case Routed(k, op) => T.ValidVC(r, k) && T.Routable(r, op) && In(c, k).st.I? && Q(c, k) != [] && Q(c, k)[0].IsHead()
    case Finished => true
  }

  // The change follows the routing function.
  ghost predicate Lawful(g: Routing, r: int, c: Ctl, x: Change) {
    match x
    case Allocated(i, ov) =>
      0 <= i < |c.reqQ| && Q(c, c.reqQ[i].0) != [] &&
      g.admits(r, c.reqQ[i].0, Q(c, c.reqQ[i].0)[0].pkt, c.reqQ[i].1, ov)
    case Routed(k, op) => Q(c, k) != [] && g.out(r, k, Q(c, k)[0].pkt, op)
    case _ => true
  }

  ghost function Changed(T: Topo, s: Net, r: int, x: Change): Net
    requires Sized(T, s) && 0 <= r < |s.rs| && Allowed(T, s, r, x)
  {
    var rs := s.rs[r];
    match x
    case Credited => Upd(s, r, Inc(T, rs))
    case Served(op) => LTPort(T, s, r, op)
    case Crossed(ip) => STPort(T, s, r, ip)
    case Asked(k) => Upd(s, r, rs.(c := Request(rs.c, k, s.now)))
    case Taken(k) => Upd(s, r, Take(T, r, rs, k, s.now))
    case Allocated(i, ov) => Upd(s, r, rs.(c := Allocate(rs.c, i, ov, s.now)))
    case Routed(k, op) => Upd(s, r, rs.(c := Route(rs.c, k, op)))
    case Finished => Upd(s, r, rs.(ran := s.now))
  }

  // Router r may make the lawful change x; the invariant holds before and after.
  ghost predicate Leads(T: Topo, g: Routing, s: Net, r: int, x: Change) {
    && Inv(T, s) && 0 <= r < |s.rs| && Allowed(T, s, r, x) && Lawful(g, r, s.rs[r].c, x)
    && Inv(T, Changed(T, s, r, x))
  }

  // Every lawful change keeps J.
  ghost predicate Kept(T: Topo, g: Routing, J: Net -> bool) {
    forall s, r, x {:trigger Changed(T, s, r, x)} :: Leads(T, g, s, r, x) && J(s) ==> J(Changed(T, s, r, x))
  }

  // ---------- the stages ----------

  lemma IncOne(T: Topo, g: Routing, J: Net -> bool, s: Net, r: int)
    requires Kept(T, g, J) && J(s) && Inv(T, s) && 0 <= r < |s.rs|
    requires s.rs[r].deps != [] && s.rs[r].deps[0].clk <= s.now
    ensures J(Upd(s, r, Inc(T, s.rs[r]))) && Inv(T, Upd(s, r, Inc(T, s.rs[r])))
  {
    IncInv(T, s, r);
    assert J(Changed(T, s, r, Credited));
  }

  lemma {:induction false} IncKeeps(T: Topo, g: Routing, J: Net -> bool, s: Net, r: int)
    requires Kept(T, g, J) && J(s) && Inv(T, s) && 0 <= r < |s.rs|
    ensures J(IncAll(T, s, r))
    decreases |s.rs[r].deps|
  {
    if s.rs[r].deps != [] && s.rs[r].deps[0].clk <= s.now {
      IncOne(T, g, J, s, r);
      IncKeeps(T, g, J, Upd(s, r, Inc(T, s.rs[r])), r);
    }
  }

  lemma LTOne(T: Topo, g: Routing, J: Net -> bool, s: Net, r: int, op: int)
    requires Kept(T, g, J) && J(s) && Inv(T, s) && 0 <= r < |s.rs| && 0 <= op < T.npc[r] && Inv(T, LTPort(T, s, r, op))
    ensures J(LTPort(T, s, r, op))
  {
    assert J(Changed(T, s, r, Served(op)));
  }

  lemma LTNext(T: Topo, g: Routing, J: Net -> bool, s: Net, r: int, n: nat)
    requires Kept(T, g, J) && Inv(T, s) && 0 <= r < |s.rs| && n < T.npc[r] && LTDone(T, s, s, r, 0)
    requires J(LTUpto(T, s, r, n))
    ensures J(LTUpto(T, s, r, n + 1))
  {
    LTUptoInv(T, s, r, n);
    LTUptoInv(T, s, r, n + 1);
    LTOne(T, g, J, LTUpto(T, s, r, n), r, n);
  }

  lemma {:induction false} LTKeeps(T: Topo, g: Routing, J: Net -> bool, s: Net, r: int, n: nat)
    requires Kept(T, g, J) && J(s) && Inv(T, s) && 0 <= r < |s.rs| && n <= T.npc[r] && LTDone(T, s, s, r, 0)
    ensures J(LTUpto(T, s, r, n))
  {
    if n > 0 {
      LTKeeps(T, g, J, s, r, n - 1);
      LTNext(T, g, J, s, r, n - 1);
    }
  }

  lemma STOne(T: Topo, g: Routing, J: Net -> bool, s: Net, r: int, ip: int)
    requires Kept(T, g, J) && J(s) && Inv(T, s) && 0 <= r < |s.rs| && 0 <= ip < T.npc[r]
    requires Waiting(s.rs[r].c, ip) != INVALID_VC && Q(s.rs[r].c, VC(ip, Waiting(s.rs[r].c, ip))) != []
    requires Inv(T, STPort(T, s, r, ip))
    ensures J(STPort(T, s, r, ip))
  {
    assert J(Changed(T, s, r, Crossed(ip)));
  }

  // Input port n keeps J.
  ghost predicate STPass(T: Topo, J: Net -> bool, s: Net, r: int, n: nat)
    requires Sized(T, s) && 0 <= r < |s.rs|
  {
    J(STUpto(T, s, r, n)) ==> J(STUpto(T, s, r, n + 1))
  }

  lemma STNext(T: Topo, g: Routing, J: Net -> bool, s: Net, r: int, n: nat)
    requires Kept(T, g, J) && Sized(T, s) && 0 <= r < |s.rs| && n < T.npc[r] && STDone(T, s, s, r, 0)
    ensures STPass(T, J, s, r, n)
  {
    var u := STUpto(T, s, r, n);
    if J(u) {
      STUptoInv(T, s, r, n);
      STUptoInv(T, s, r, n + 1);
      STUptoNext(T, s, r, n);
      var c := u.rs[r].c;
      if Waiting(c, n) != INVALID_VC && Q(c, VC(n, Waiting(c, n))) != [] { STOne(T, g, J, u, r, n); }
    }
  }

  lemma {:induction false} STKeeps(T: Topo, J: Net -> bool, s: Net, r: int, n: nat)
    requires J(s) && Sized(T, s) && 0 <= r < |s.rs|
    requires forall i: nat {:trigger STPass(T, J, s, r, i)} :: i < n ==> STPass(T, J, s, r, i)
    ensures J(STUpto(T, s, r, n))
  {
    if n > 0 {
      STKeeps(T, J, s, r, n - 1);
      assert STPass(T, J, s, r, n - 1);
    }
  }

  lemma AskOne(T: Topo, g: Routing, J: Net -> bool, s: Net, r: int, k: VC)
    requires Kept(T, g, J) && J(s) && Inv(T, s) && 0 <= r < |s.rs| && T.ValidVC(r, k) && Asks(s.rs[r].c, k)
    requires Inv(T, Upd(s, r, s.rs[r].(c := Request(s.rs[r].c, k, s.now))))
    ensures J(Upd(s, r, s.rs[r].(c := Request(s.rs[r].c, k, s.now))))
  {
    assert J(Changed(T, s, r, Asked(k)));
  }

  lemma AskNext(T: Topo, g: Routing, J: Net -> bool, s: Net, r: int, ks: seq<VC>, n: nat)
    requires Kept(T, g, J) && Inv(T, s) && 0 <= r < |s.rs| && n < |ks| && Idle(T, r, s.rs[r].c)
    requires forall i :: 0 <= i < |ks| ==> T.ValidVC(r, ks[i])
    requires J(AskUpto(s, r, ks, n))
    ensures J(AskUpto(s, r, ks, n + 1))
  {
    AskUptoInv(T, s, r, ks, n);
    AskUptoInv(T, s, r, ks, n + 1);
    var u := AskUpto(s, r, ks, n);
    if Asks(u.rs[r].c, ks[n]) { AskOne(T, g, J, u, r, ks[n]); }
  }

  lemma AskKeeps(T: Topo, g: Routing, J: Net -> bool, s: Net, r: int)
    requires Kept(T, g, J) && J(s) && Inv(T, s) && 0 <= r < |s.rs| && Idle(T, r, s.rs[r].c)
    ensures J(Ask(T, s, r))
  {
    var ks := FreeKeys(s.rs[r].c.sw, T.npc[r], T.nvc);
    FreeKeysValid(s.rs[r].c.sw, T.npc[r], T.nvc);
    var i := 0;
    while i < |ks|
      invariant 0 <= i <= |ks| && J(AskUpto(s, r, ks, i))
    {
      AskNext(T, g, J, s, r, ks, i);
      i := i + 1;
    }
  }

  lemma TakeOne(T: Topo, g: Routing, J: Net -> bool, s: Net, r: int, k: VC)
    requires Kept(T, g, J) && J(s) && Inv(T, s) && 0 <= r < |s.rs| && GrantOk(T, r, s.rs[r], k) && Q(s.rs[r].c, k) != []
    ensures J(Upd(s, r, Take(T, r, s.rs[r], k, s.now)))
  {
    TakeInv(T, s, r, k);
    assert J(Changed(T, s, r, Taken(k)));
  }

  // Grant n keeps J.
  ghost predicate TakePass(T: Topo, J: Net -> bool, s: Net, r: int, gs: seq<VC>, n: nat)
    requires Sized(T, s) && 0 <= r < |s.rs| && n < |gs|
  {
    J(GrantUpto(T, s, r, gs, n)) ==> J(GrantUpto(T, s, r, gs, n + 1))
  }

  lemma TakeNext(T: Topo, g: Routing, J: Net -> bool, s: Net, r: int, spec: bool, gs: seq<VC>, n: nat)
    requires Kept(T, g, J) && Inv(T, s) && 0 <= r < |s.rs| && n < |gs| && GrantsOk(T, r, s.rs[r], s.now, spec, gs)
    ensures TakePass(T, J, s, r, gs, n)
  {
    var u := GrantUpto(T, s, r, gs, n);
    if J(u) {
      GrantUptoInv(T, s, r, spec, gs, n);
      if Q(u.rs[r].c, gs[n]) != [] { TakeOne(T, g, J, u, r, gs[n]); }
    }
  }

  lemma {:induction false} TakeKeeps(T: Topo, J: Net -> bool, s: Net, r: int, gs: seq<VC>, n: nat)
    requires J(s) && Sized(T, s) && 0 <= r < |s.rs| && n <= |gs|
    requires forall i: nat {:trigger TakePass(T, J, s, r, gs, i)} :: i < n ==> TakePass(T, J, s, r, gs, i)
    ensures J(GrantUpto(T, s, r, gs, n))
  {
    if n > 0 {
      TakeKeeps(T, J, s, r, gs, n - 1);
      assert TakePass(T, J, s, r, gs, n - 1);
    }
  }

  // What stageRC and stageVA are given follows the routing function.
  ghost predicate RightRoute(g: Routing, r: int, c: Ctl, route: VC -> Option<int>) {
    forall k {:trigger route(k)} :: In(c, k).st.I? && Q(c, k) != [] && Q(c, k)[0].IsHead() && route(k).Some? ==>
      g.out(r, k, Q(c, k)[0].pkt, route(k).value)
  }

  ghost predicate RightAdmit(T: Topo, g: Routing, r: int, c: Ctl, admit: (int, VC, int) -> bool) {
    forall k, op, ov {:trigger admit(ov, k, op)} ::
      0 <= ov < T.nvc && (k, op) in c.reqQ && VC(op, ov) !in c.busy && Q(c, k) != [] && admit(ov, k, op) ==>
      g.admits(r, k, Q(c, k)[0].pkt, op, ov)
  }

  lemma AllocateRight(T: Topo, g: Routing, r: int, c: Ctl, admit: (int, VC, int) -> bool, i: nat, ov: int, now: int)
    requires RightAdmit(T, g, r, c, admit) && i < |c.reqQ|
    ensures RightAdmit(T, g, r, Allocate(c, i, ov, now), admit)
  {
    var c' := Allocate(c, i, ov, now);
    forall k, op, v | 0 <= v < T.nvc && (k, op) in c'.reqQ && VC(op, v) !in c'.busy && Q(c', k) != [] && admit(v, k, op)
      ensures g.admits(r, k, Q(c', k)[0].pkt, op, v) {
      assert (k, op) in c.reqQ && Q(c', k) == Q(c, k);
    }
  }

  // A queued request is for a flit that is there.
  lemma RequestedFlit(T: Topo, s: Net, r: int, i: nat)
    requires Inv(T, s) && 0 <= r < |s.rs| && i < |s.rs[r].c.reqQ|
    ensures T.ValidVC(r, s.rs[r].c.reqQ[i].0) && Q(s.rs[r].c, s.rs[r].c.reqQ[i].0) != []
  {
    var c := s.rs[r].c;
    assert Control(T, r, c);
    assert InOk(T, r, c, c.reqQ[i].0);
  }

  lemma AllocateOne(T: Topo, g: Routing, J: Net -> bool, s: Net, r: int, admit: (int, VC, int) -> bool, i: nat, ov: int)
    returns (s1: Net)
    requires Kept(T, g, J) && J(s) && Inv(T, s) && 0 <= r < |s.rs| && RightAdmit(T, g, r, s.rs[r].c, admit)
    requires Allocatable(T, s.rs[r].c, i, ov) && admit(ov, s.rs[r].c.reqQ[i].0, s.rs[r].c.reqQ[i].1)
    ensures s1 == Upd(s, r, s.rs[r].(c := Allocate(s.rs[r].c, i, ov, s.now)))
    ensures J(s1) && Inv(T, s1) && RightAdmit(T, g, r, s1.rs[r].c, admit)
  {
    var c := s.rs[r].c;
    s1 := Upd(s, r, s.rs[r].(c := Allocate(c, i, ov, s.now)));
    AllocateInv(T, s, r, i, ov);
    AllocateRight(T, g, r, c, admit, i, ov, s.now);
    RequestedFlit(T, s, r, i);
    assert (c.reqQ[i].0, c.reqQ[i].1) in c.reqQ;
    assert J(Changed(T, s, r, Allocated(i, ov)));
  }

  lemma {:induction false} VAKeeps(T: Topo, g: Routing, J: Net -> bool, s: Net, r: int, admit: (int, VC, int) -> bool,
                                   i: nat)
    requires Kept(T, g, J) && J(s) && Inv(T, s) && 0 <= r < |s.rs| && i <= |s.rs[r].c.reqQ|
    requires RightAdmit(T, g, r, s.rs[r].c, admit)
    ensures J(VAFrom(T, s, r, admit, i))
    decreases |s.rs[r].c.reqQ| - i
  {
    var c := s.rs[r].c;
    if i < |c.reqQ| {
      var x := FirstVC(T, c, admit, c.reqQ[i].0, c.reqQ[i].1, 0);
      FirstVCIs(T, c, admit, c.reqQ[i].0, c.reqQ[i].1, 0);
      if x.None? {
        VAKeeps(T, g, J, s, r, admit, i + 1);
      } else {
        var s1 := AllocateOne(T, g, J, s, r, admit, i, x.value);
        VAKeeps(T, g, J, s1, r, admit, i);
      }
    }
  }

  // Part of stageRC is done: what is still to be routed is as it was at first.
  ghost predicate PartRouted(T: Topo, J: Net -> bool, s: Net, r: int, u: Net)
    requires 0 <= r < |s.rs|
  {
    && RCDone(T, s, u, r) && J(u) && u.rs[r].c.q == s.rs[r].c.q
    && (forall k {:trigger In(u.rs[r].c, k)} :: In(u.rs[r].c, k).st.I? ==> In(s.rs[r].c, k).st.I?)
  }

  lemma RouteOne(T: Topo, g: Routing, J: Net -> bool, s: Net, r: int, k: VC, op: int)
    requires Kept(T, g, J) && J(s) && Inv(T, s) && 0 <= r < |s.rs| && T.ValidVC(r, k) && T.Routable(r, op)
    requires In(s.rs[r].c, k).st.I? && Q(s.rs[r].c, k) != [] && g.out(r, k, Q(s.rs[r].c, k)[0].pkt, op)
    ensures J(Upd(s, r, s.rs[r].(c := Route(s.rs[r].c, k, op))))
  {
    RouteInv(T, s, r, k, op);
    assert J(Changed(T, s, r, Routed(k, op)));
  }

  lemma RouteKeyKeeps(T: Topo, g: Routing, J: Net -> bool, s: Net, r: int, route: VC -> Option<int>, u: Net, k: VC)
    requires Kept(T, g, J) && 0 <= r < |s.rs| && PartRouted(T, J, s, r, u) && RouteOk(T, r, route) && T.ValidVC(r, k)
    requires RightRoute(g, r, s.rs[r].c, route)
    ensures PartRouted(T, J, s, r, RouteKey(u, r, route, k))
  {
    RouteKeyInv(T, s, u, r, route, k);
    var c := u.rs[r].c;
    if In(c, k).st.I? && Q(c, k) != [] && Q(c, k)[0].IsHead() && route(k).Some? {
      assert In(s.rs[r].c, k).st.I? && Q(s.rs[r].c, k) == Q(c, k);
      RouteOne(T, g, J, u, r, k, route(k).value);
      var s' := RouteKey(u, r, route, k);
      forall k' | In(s'.rs[r].c, k').st.I? ensures In(s.rs[r].c, k').st.I? { assert In(c, k').st.I?; }
    }
  }

  lemma {:induction false} RouteRowKeeps(T: Topo, g: Routing, J: Net -> bool, s: Net, r: int, route: VC -> Option<int>,
          u: Net, pc: int, n: nat)
    requires Kept(T, g, J) && 0 <= r < |s.rs| && PartRouted(T, J, s, r, u) && RouteOk(T, r, route)
    requires 0 <= pc < T.npc[r] && n <= T.nvc && RightRoute(g, r, s.rs[r].c, route)
    ensures PartRouted(T, J, s, r, RouteRow(u, r, route, pc, n))
  {
    if n > 0 {
      RouteRowKeeps(T, g, J, s, r, route, u, pc, n - 1);
      RouteKeyKeeps(T, g, J, s, r, route, RouteRow(u, r, route, pc, n - 1), VC(pc, n - 1));
    }
  }

  // Input port n keeps J and what is routed.
  ghost predicate RoutePass(T: Topo, J: Net -> bool, s: Net, r: int, route: VC -> Option<int>, n: nat)
    requires Sized(T, s) && 0 <= r < |s.rs|
  {
    PartRouted(T, J, s, r, RouteUpto(T, s, r, route, n)) ==> PartRouted(T, J, s, r, RouteUpto(T, s, r, route, n + 1))
  }

  lemma RouteNext(T: Topo, g: Routing, J: Net -> bool, s: Net, r: int, route: VC -> Option<int>, n: nat)
    requires Kept(T, g, J) && Sized(T, s) && 0 <= r < |s.rs| && RouteOk(T, r, route) && n < T.npc[r]
    requires RightRoute(g, r, s.rs[r].c, route)
    ensures RoutePass(T, J, s, r, route, n)
  {
    var u := RouteUpto(T, s, r, route, n);
    if PartRouted(T, J, s, r, u) { RouteRowKeeps(T, g, J, s, r, route, u, n, T.nvc); }
  }

  lemma {:induction false} RouteKeeps(T: Topo, J: Net -> bool, s: Net, r: int, route: VC -> Option<int>, n: nat)
    requires Sized(T, s) && 0 <= r < |s.rs| && PartRouted(T, J, s, r, s)
    requires forall i: nat {:trigger RoutePass(T, J, s, r, route, i)} :: i < n ==> RoutePass(T, J, s, r, route, i)
    ensures PartRouted(T, J, s, r, RouteUpto(T, s, r, route, n))
  {
    if n > 0 {
      RouteKeeps(T, J, s, r, route, n - 1);
      assert RoutePass(T, J, s, r, route, n - 1);
    }
  }

  // ---------- router_sim ----------

  lemma FrontKeeps(T: Topo, g: Routing, J: Net -> bool, s: Net, r: int)
    requires Kept(T, g, J) && J(s) && Inv(T, s) && 0 <= r < |s.rs| && Rested(T, r, s.rs[r], s.now) &&
             s.rs[r].ran < s.now
    ensures J(Front(T, s, r))
  {
    IncStage(T, s, r);
    LTStage(T, s, r);
    IncKeeps(T, g, J, s, r);
    var s1 := IncAll(T, s, r);
    LTKeeps(T, g, J, s1, r, T.npc[r]);
    var s2 := LTUpto(T, s1, r, T.npc[r]);
    forall i: nat | i < T.npc[r] ensures STPass(T, J, s2, r, i) { STNext(T, g, J, s2, r, i); }
    STKeeps(T, J, s2, r, T.npc[r]);
    STUptoInv(T, s2, r, T.npc[r]);
    AskKeeps(T, g, J, STUpto(T, s2, r, T.npc[r]), r);
  }

  lemma GrantsKeep(T: Topo, g: Routing, J: Net -> bool, s: Net, r: int, spec: bool, gs: seq<VC>)
    requires Kept(T, g, J) && J(s) && Inv(T, s) && 0 <= r < |s.rs| && GrantsOk(T, r, s.rs[r], s.now, spec, gs)
    ensures var s' := GrantUpto(T, s, r, gs, |gs|); J(s') && Inv(T, s') && s'.now == s.now
  {
    forall i: nat | i < |gs| ensures TakePass(T, J, s, r, gs, i) { TakeNext(T, g, J, s, r, spec, gs, i); }
    TakeKeeps(T, J, s, r, gs, |gs|);
    GrantUptoInv(T, s, r, spec, gs, |gs|);
  }

  lemma RoutesKeep(T: Topo, g: Routing, J: Net -> bool, s: Net, r: int, route: VC -> Option<int>)
    requires Kept(T, g, J) && J(s) && Inv(T, s) && 0 <= r < |s.rs| && RouteOk(T, r, route) &&
             RightRoute(g, r, s.rs[r].c, route)
    ensures var s' := RouteUpto(T, s, r, route, T.npc[r]); J(s') && Inv(T, s') && s'.now == s.now
  {
    forall i: nat | i < T.npc[r] ensures RoutePass(T, J, s, r, route, i) { RouteNext(T, g, J, s, r, route, i); }
    RouteKeeps(T, J, s, r, route, T.npc[r]);
  }

  // The states in which stageVA and stageRC run, from the state after stageST and the requests.
  function BeforeVA(T: Topo, s: Net, r: int, ch: Choice): (s': Net)
    requires Sized(T, s) && 0 <= r < |s.rs|
    ensures Sized(T, s')
  {
    var s1 := GrantUpto(T, s, r, ch.sa, |ch.sa|);
    if T.lookahead then RouteUpto(T, s1, r, ch.route, T.npc[r]) else s1
  }

  function BeforeRC(T: Topo, s: Net, r: int, ch: Choice): (s': Net)
    requires Sized(T, s) && 0 <= r < |s.rs|
    ensures Sized(T, s')
  {
    if T.lookahead then GrantUpto(T, s, r, ch.sa, |ch.sa|)
    else if T.spec then GrantUpto(T, Middle(T, s, r, ch), r, ch.ssa, |ch.ssa|)
    else Middle(T, s, r, ch)
  }

  // The routing function made the choices of this call of router_sim.
  ghost predicate RightChoice(T: Topo, g: Routing, s: Net, r: int, ch: Choice)
    requires Sized(T, s) && 0 <= r < |s.rs|
  {
    var s1 := Front(T, s, r);
    RightRoute(g, r, BeforeRC(T, s1, r, ch).rs[r].c, ch.route) &&
      RightAdmit(T, g, r, BeforeVA(T, s1, r, ch).rs[r].c, ch.admit)
  }

  lemma MiddleKeeps(T: Topo, g: Routing, J: Net -> bool, s: Net, r: int, ch: Choice)
    requires Kept(T, g, J) && J(s) && Inv(T, s) && 0 <= r < |s.rs| && RouteOk(T, r, ch.route)
    requires GrantsOk(T, r, s.rs[r], s.now, false, ch.sa) &&
             RightAdmit(T, g, r, BeforeVA(T, s, r, ch).rs[r].c, ch.admit)
    requires T.lookahead ==> RightRoute(g, r, BeforeRC(T, s, r, ch).rs[r].c, ch.route)
    ensures J(Middle(T, s, r, ch))
  {
    GrantsKeep(T, g, J, s, r, false, ch.sa);
    var s1 := GrantUpto(T, s, r, ch.sa, |ch.sa|);
    if T.lookahead { RoutesKeep(T, g, J, s1, r, ch.route); }
    VAKeeps(T, g, J, BeforeVA(T, s, r, ch), r, ch.admit, 0);
  }

  lemma FinishOne(T: Topo, g: Routing, J: Net -> bool, s: Net, r: int)
    requires Kept(T, g, J) && J(s) && Inv(T, s) && 0 <= r < |s.rs|
    ensures J(Upd(s, r, s.rs[r].(ran := s.now)))
  {
    StampRan(T, s, r);
    assert J(Changed(T, s, r, Finished));
  }

  lemma BackKeeps(T: Topo, g: Routing, J: Net -> bool, s: Net, r: int, ch: Choice)
    requires Kept(T, g, J) && J(s) && Inv(T, s) && 0 <= r < |s.rs| && RouteOk(T, r, ch.route)
    requires T.spec ==> GrantsOk(T, r, s.rs[r], s.now, true, ch.ssa)
    requires !T.lookahead ==>
               RightRoute(g, r, (if T.spec then GrantUpto(T, s, r, ch.ssa, |ch.ssa|) else s).rs[r].c, ch.route)
    ensures J(Back(T, s, r, ch))
  {
    if T.spec { GrantsKeep(T, g, J, s, r, true, ch.ssa); }
    var s1 := if T.spec then GrantUpto(T, s, r, ch.ssa, |ch.ssa|) else s;
    if !T.lookahead { RoutesKeep(T, g, J, s1, r, ch.route); }
    var s2 := if T.lookahead then s1 else RouteUpto(T, s1, r, ch.route, T.npc[r]);
    FinishOne(T, g, J, s2, r);
  }

  lemma SimKeeps(T: Topo, g: Routing, J: Net -> bool, s: Net, r: int, ch: Choice)
    requires Kept(T, g, J) && J(s) && Good(T, s) && 0 <= r < |s.rs| && s.rs[r].ran < s.now && ChoiceOk(T, s, r, ch)
    requires RightChoice(T, g, s, r, ch)
    ensures J(RouterSim(T, s, r, ch))
  {
    assert Rested(T, r, s.rs[r], s.now);
    FrontKeeps(T, g, J, s, r);
    FrontInv(T, s, r);
    var s1 := Front(T, s, r);
    FrontNoLater(s1.rs[r], s.now);
    MiddleKeeps(T, g, J, s1, r, ch);
    MiddleInv(T, s1, r, ch);
    BackKeeps(T, g, J, Middle(T, s1, r, ch), r, ch);
  }

  lemma FrontNoLater(rs: RouterState, now: int)
    requires OldGrants(rs, now)
    ensures NoLaterGrants(rs, now)
  {
    forall op | op in rs.c.xown ensures XClk(rs, op) <= now { assert XClk(rs, op) < now; }
  }

  // ---------- runs ----------

  // No packet is being written into the port.
  ghost predicate NoneBegun(rs: RouterState, pc: int) {
    forall k: VC {:trigger Pending(rs, k)} :: k.pc == pc ==> Pending(rs, k) == []
  }

  // The action follows the routing function, and a packet enters the network where it may.
  ghost predicate LawfulAct(T: Topo, g: Routing, s: Net, a: Action)
    requires Sized(T, s) && Enabled(T, s, a)
  {
    match a
    case Sim(r, ch) => RightChoice(T, g, s, r, ch)
    case Begin(r, k, pkt, start, n) => g.may(r, k, pkt) && (g.single ==> NoneBegun(s.rs[r], k.pc))
    case _ => true
  }

  ghost predicate LawfulRun(T: Topo, g: Routing, s: Net, acts: seq<Action>, s': Net)
    requires Sized(T, s)
    decreases |acts|
  {
    if acts == [] then s' == s
    else
      && Enabled(T, s, acts[0]) && LawfulAct(T, g, s, acts[0]) && Sized(T, Do(T, s, acts[0]))
      && LawfulRun(T, g, Do(T, s, acts[0]), acts[1..], s')
  }

  // The states a network with this routing function comes to.
  ghost predicate LawfulReachable(T: Topo, g: Routing, s: Net) {
    T.Valid() && exists acts :: LawfulRun(T, g, Init(T), acts, s)
  }

  lemma {:induction false} LawfulIsRun(T: Topo, g: Routing, s: Net, acts: seq<Action>, s': Net)
    requires Sized(T, s) && LawfulRun(T, g, s, acts, s')
    ensures Run(T, s, acts, s')
    decreases |acts|
  {
    if acts != [] { LawfulIsRun(T, g, Do(T, s, acts[0]), acts[1..], s'); }
  }

  lemma LawfulIsReachable(T: Topo, g: Routing, s: Net)
    requires LawfulReachable(T, g, s)
    ensures Reachable(T, s)
  {
    var acts :| LawfulRun(T, g, Init(T), acts, s);
    LawfulIsRun(T, g, Init(T), acts, s);
  }

  lemma {:induction false} LawfulAppend(T: Topo, g: Routing, s: Net, acts: seq<Action>, s': Net, a: Action)
    requires Good(T, s) && LawfulRun(T, g, s, acts, s') && Sized(T, s') && Enabled(T, s', a) && LawfulAct(T, g, s', a)
    ensures LawfulRun(T, g, s, acts + [a], Do(T, s', a))
    decreases |acts|
  {
    OneMore(acts, a);
    if acts == [] {
      StepGood(T, s, a);
    } else {
      StepGood(T, s, acts[0]);
      LawfulAppend(T, g, Do(T, s, acts[0]), acts[1..], s', a);
      LawfulFirst(T, g, s, acts + [a], Do(T, s', a));
    }
  }

  lemma OneMore(acts: seq<Action>, a: Action)
    ensures (acts + [a])[0] == if acts == [] then a else acts[0]
    ensures (acts + [a])[1..] == if acts == [] then [] else acts[1..] + [a]
  {}

  lemma LawfulFirst(T: Topo, g: Routing, s: Net, acts: seq<Action>, s': Net)
    requires Sized(T, s) && acts != [] && Enabled(T, s, acts[0]) && LawfulAct(T, g, s, acts[0])
    requires Sized(T, Do(T, s, acts[0])) && LawfulRun(T, g, Do(T, s, acts[0]), acts[1..], s')
    ensures LawfulRun(T, g, s, acts, s')
  {}

  // A lawful action taken in a state the network comes to leads to another.
  lemma LawfulStep(T: Topo, g: Routing, s: Net, a: Action)
    requires LawfulReachable(T, g, s) && Sized(T, s) && Enabled(T, s, a) && LawfulAct(T, g, s, a)
    ensures LawfulReachable(T, g, Do(T, s, a))
  {
    InitGood(T);
    var acts :| LawfulRun(T, g, Init(T), acts, s);
    LawfulAppend(T, g, Init(T), acts, s, a);
  }

  // Network interfaces and the clock keep J.
  ghost predicate KeptOutside(T: Topo, g: Routing, J: Net -> bool) {
    forall s, a: Action {:trigger Do(T, s, a)} ::
      Good(T, s) && !a.Sim? && Enabled(T, s, a) && LawfulAct(T, g, s, a) && J(s) ==> J(Do(T, s, a))
  }

  lemma StepKeeps(T: Topo, g: Routing, J: Net -> bool, s: Net, a: Action)
    requires Kept(T, g, J) && KeptOutside(T, g, J) && Good(T, s) && J(s) && Enabled(T, s, a) && LawfulAct(T, g, s, a)
    ensures Good(T, Do(T, s, a)) && J(Do(T, s, a))
  {
    StepGood(T, s, a);
    if a.Sim? { SimKeeps(T, g, J, s, a.r, a.ch); }
  }

  lemma {:induction false} RunKeeps(T: Topo, g: Routing, J: Net -> bool, s: Net, acts: seq<Action>, s': Net)
    requires Kept(T, g, J) && KeptOutside(T, g, J) && Good(T, s) && J(s) && LawfulRun(T, g, s, acts, s')
    ensures Good(T, s') && J(s') && Run(T, s, acts, s')
    decreases |acts|
  {
    if acts != [] {
      StepKeeps(T, g, J, s, acts[0]);
      RunKeeps(T, g, J, Do(T, s, acts[0]), acts[1..], s');
    }
  }

  // What holds at first and is kept by every lawful change holds in every state the network comes to.
  lemma Invariance(T: Topo, g: Routing, J: Net -> bool, s: Net)
    requires Kept(T, g, J) && KeptOutside(T, g, J) && T.Valid() && J(Init(T)) && LawfulReachable(T, g, s)
    ensures Reachable(T, s) && J(s)
  {
    InitGood(T);
    var acts :| LawfulRun(T, g, Init(T), acts, s);
    RunKeeps(T, g, J, Init(T), acts, s);
  }

  lemma {:induction false} FreeRun(T: Topo, s: Net, acts: seq<Action>, s': Net)
    requires Sized(T, s) && Run(T, s, acts, s')
    ensures LawfulRun(T, FREE, s, acts, s')
    decreases |acts|
  {
    if acts != [] { FreeRun(T, Do(T, s, acts[0]), acts[1..], s'); }
  }

  // Every run is a run of the routing function that lets everything pass.
  lemma FreeReachable(T: Topo, s: Net)
    requires Reachable(T, s)
    ensures LawfulReachable(T, FREE, s)
  {
    var acts :| Run(T, Init(T), acts, s);
    FreeRun(T, Init(T), acts, s);
  }
}
