// Runs of the whole network: routers step once a cycle, network interfaces inject packets, time passes.
// Every reachable state satisfies the invariant, and the theorems here read off what that means.

module Runs {
  import opened Wiring
  import opened Flits
  import opened Protocol
  import opened Invariant
  import opened ControlProofs
  import opened StreamProofs
  import opened CreditProofs
  import opened LinkProofs
  import opened StepProofs
  import opened Stages
  import opened StageProofs

  datatype Action =
    | Sim(r: int, ch: Choice)                               // one call of router_sim
    | Begin(r: int, k: VC, pkt: nat, start: nat, n: nat)    // segmentPacket takes a free VC for a packet of n flits
    | Write(r: int, k: VC)                                  // segmentPacket writes the packet's next flit
    | Tick                                                  // the clock moves on one cycle

  ghost predicate Enabled(T: Topo, s: Net, a: Action)
    requires Sized(T, s)
  {
    match a
    case Sim(r, ch) => 0 <= r < |s.rs| && s.rs[r].ran < s.now && ChoiceOk(T, s, r, ch)
    case Begin(r, k, pkt, start, n) =>
      T.ValidVC(r, k) && T.IsEject(r, k.pc) && Pending(s.rs[r], k) == [] && !IsFull(T, s.rs[r].c, k)
    case Write(r, k) =>
      T.ValidVC(r, k) && T.IsEject(r, k.pc) && Pending(s.rs[r], k) != [] && !IsFull(T, s.rs[r].c, k)
    // process_router lets a router sleep only when it has no flits inside
    case Tick => forall r {:trigger s.rs[r]} :: 0 <= r < |s.rs| && s.rs[r].inside != 0 ==> s.rs[r].ran == s.now
  }

  ghost function Do(T: Topo, s: Net, a: Action): Net
    requires Sized(T, s) && Enabled(T, s, a)
  {
    match a
    case Sim(r, ch) => RouterSim(T, s, r, ch)
    case Begin(r, k, pkt, start, n) => Upd(s, r, Reserve(s.rs[r], k, pkt, start, n))
    case Write(r, k) => Upd(s, r, Inject(s.rs[r], k))
    case Tick => s.(now := s.now + 1)
  }

  // Between two calls of router_sim the clocks of a router speak of its last call.
  ghost predicate Rested(T: Topo, r: int, rs: RouterState, now: int)
    requires T.ValidRouter(r)
  {
    && rs.ran <= now && Served(T, r, rs, rs.ran)
    && (forall op {:trigger XClk(rs, op)} :: op in rs.c.xown ==> XClk(rs, op) <= rs.ran)
  }

  ghost predicate AllRested(T: Topo, s: Net)
    requires Sized(T, s)
  {
    forall r {:trigger Rested(T, r, s.rs[r], s.now)} :: 0 <= r < |s.rs| ==> Rested(T, r, s.rs[r], s.now)
  }

  ghost predicate Good(T: Topo, s: Net) { Inv(T, s) && AllRested(T, s) }

  // ---------- the first state ----------

  lemma InitControls(T: Topo)
    requires T.Valid()
    ensures Controls(T, Init(T))
  {
    var s := Init(T);
    forall r | 0 <= r < |s.rs| ensures Control(T, r, s.rs[r].c) {
      forall k | T.ValidVC(r, k) ensures InOk(T, r, NEW_CTL, k) {}
      forall k | T.ValidVC(r, k) ensures Wormhole(Here(NEW_CTL, k)) {}
    }
  }

  lemma InitStreams(T: Topo)
    requires T.Valid()
    ensures Streams(T, Init(T))
  {
    var s := Init(T);
    forall r, k | 0 <= r < |s.rs| && T.ValidVC(r, k) ensures StreamOk(T, s, r, k) {}
  }

  lemma InitCredits(T: Topo)
    requires T.Valid()
    ensures Credits(T, Init(T))
  {
    var s := Init(T);
    forall r, o | 0 <= r < |s.rs| && T.ValidVC(r, o) ensures CreditOk(T, s, r, o) {}
    forall r, op | 0 <= r < |s.rs| ensures SharedOk(T, r, s.rs[r], op) { AllCredits(T, op, T.nvc); }
  }

  lemma InitCounts(T: Topo)
    requires T.Valid()
    ensures Counts(T, Init(T))
  {
    var s := Init(T);
    forall r | 0 <= r < |s.rs| ensures InsideOk(T, r, s.rs[r]) { NothingInside(T.npc[r], T.nvc); }
  }

  lemma InitRested(T: Topo)
    requires T.Valid()
    ensures AllRested(T, Init(T)) && Links(T, Init(T))
  {
    var s := Init(T);
    forall r | 0 <= r < |s.rs| ensures Rested(T, r, s.rs[r], s.now) {}
  }

  lemma InitGood(T: Topo)
    requires T.Valid()
    ensures Good(T, Init(T))
  {
    InitControls(T);
    InitStreams(T);
    InitCredits(T);
    InitCounts(T);
    InitRested(T);
  }

  lemma NothingInside(n: nat, nvc: nat)
    ensures SumQ(map[], n, nvc) == 0 && SumLink(map[], n) == 0
  {
    if n > 0 {
      NothingInside(n - 1, nvc);
      EmptyRow(n - 1, nvc);
    }
  }

  lemma EmptyRow(pc: int, n: nat)
    ensures RowQ(map[], pc, n) == 0
  {
    if n > 0 { EmptyRow(pc, n - 1); }
  }

  lemma AllCredits(T: Topo, op: int, n: nat)
    requires T.rsv <= T.depth
    ensures SumCredit(T, map[], op, n) >= 0
  {
    if n > 0 { AllCredits(T, op, n - 1); }
  }

  // ---------- router_sim ----------

  // Each stage leaves what the next one starts from.
  lemma IncStage(T: Topo, s: Net, r: int)
    requires Inv(T, s) && 0 <= r < |s.rs| && Rested(T, r, s.rs[r], s.now) && s.rs[r].ran < s.now
    ensures var s1 := IncAll(T, s, r);
            LTDone(T, s1, s1, r, 0) && Elsewhere(s, s1, r) && SameClocks(s.rs[r], s1.rs[r])
  {
    IncAllInv(T, s, r);
    var s1 := IncAll(T, s, r);
    forall op | 0 <= op < T.npc[r] ensures LastLT(s1.rs[r], op) < s.now { assert LastLT(s.rs[r], op) == s.rs[r].ran; }
  }

  lemma LTStage(T: Topo, s: Net, r: int)
    requires Inv(T, s) && 0 <= r < |s.rs| && Rested(T, r, s.rs[r], s.now) && s.rs[r].ran < s.now
    ensures var s1 := IncAll(T, s, r);
            var s2 := LTUpto(T, s1, r, T.npc[r]);
            STDone(T, s2, s2, r, 0) && Elsewhere(s1, s2, r)
  {
    IncStage(T, s, r);
    var s1 := IncAll(T, s, r);
    LTUptoInv(T, s1, r, T.npc[r]);
    var s2 := LTUpto(T, s1, r, T.npc[r]);
    forall op | op in s2.rs[r].c.xown ensures XClk(s2.rs[r], op) < s.now { assert XClk(s.rs[r], op) <= s.rs[r].ran; }
    forall op | 0 <= op < T.npc[r] ensures LastLT(s2.rs[r], op) == s.now { assert op < T.npc[r]; }
  }

  lemma FrontInv(T: Topo, s: Net, r: int)
    requires Inv(T, s) && 0 <= r < |s.rs| && Rested(T, r, s.rs[r], s.now) && s.rs[r].ran < s.now
    ensures var s' := Front(T, s, r);
            && Inv(T, s') && Elsewhere(s, s', r) && Served(T, r, s'.rs[r], s.now) && OldGrants(s'.rs[r], s.now)
            && Idle(T, r, s'.rs[r].c)
  {
    IncStage(T, s, r);
    LTStage(T, s, r);
    var s1 := IncAll(T, s, r);
    var s2 := LTUpto(T, s1, r, T.npc[r]);
    STUptoInv(T, s2, r, T.npc[r]);
    var s3 := STUpto(T, s2, r, T.npc[r]);
    AskInv(T, s3, r);
    var s4 := Ask(T, s3, r);
    ElsewhereTrans(s, s1, s2, r);
    ElsewhereTrans(s, s2, s3, r);
    ElsewhereTrans(s, s3, s4, r);
    forall op | 0 <= op < T.npc[r] ensures LastLT(s4.rs[r], op) == s.now { assert LastLT(s3.rs[r], op) == s.now; }
    forall op | op in s4.rs[r].c.xown ensures XClk(s4.rs[r], op) < s.now { assert XClk(s3.rs[r], op) < s.now; }
  }

  // Grants leave every crossbar output granted this cycle or before.
  ghost predicate NoLaterGrants(rs: RouterState, now: int) {
    forall op {:trigger XClk(rs, op)} :: op in rs.c.xown ==> XClk(rs, op) <= now
  }

  lemma GrantClocks(T: Topo, s: Net, r: int, spec: bool, gs: seq<VC>)
    requires Inv(T, s) && 0 <= r < |s.rs| && GrantsOk(T, r, s.rs[r], s.now, spec, gs)
    requires Served(T, r, s.rs[r], s.now) && NoLaterGrants(s.rs[r], s.now)
    ensures var s' := GrantUpto(T, s, r, gs, |gs|);
            Inv(T, s') && Elsewhere(s, s', r) && Served(T, r, s'.rs[r], s.now) && NoLaterGrants(s'.rs[r], s.now)
  {
    GrantUptoInv(T, s, r, spec, gs, |gs|);
    var s' := GrantUpto(T, s, r, gs, |gs|);
    forall op | 0 <= op < T.npc[r] ensures LastLT(s'.rs[r], op) == s.now { assert LastLT(s.rs[r], op) == s.now; }
    forall op | op in s'.rs[r].c.xown ensures XClk(s'.rs[r], op) <= s.now {
      assert op in s.rs[r].c.xown ==> XClk(s.rs[r], op) <= s.now;
    }
  }

  lemma KeepClocks(T: Topo, s: Net, s': Net, r: int)
    requires 0 <= r < |s.rs| && Elsewhere(s, s', r) && SameClocks(s.rs[r], s'.rs[r]) && T.ValidRouter(r)
    requires Served(T, r, s.rs[r], s.now) && NoLaterGrants(s.rs[r], s.now)
    ensures Served(T, r, s'.rs[r], s.now) && NoLaterGrants(s'.rs[r], s.now)
  {
    forall op | 0 <= op < T.npc[r] ensures LastLT(s'.rs[r], op) == s.now { assert LastLT(s.rs[r], op) == s.now; }
    forall op | op in s'.rs[r].c.xown ensures XClk(s'.rs[r], op) <= s.now { assert XClk(s.rs[r], op) <= s.now; }
  }

  lemma RouteClocks(T: Topo, s: Net, r: int, route: VC -> Option<int>)
    requires Inv(T, s) && 0 <= r < |s.rs| && RouteOk(T, r, route)
    requires Served(T, r, s.rs[r], s.now) && NoLaterGrants(s.rs[r], s.now)
    ensures var s' := RouteUpto(T, s, r, route, T.npc[r]);
            Inv(T, s') && Elsewhere(s, s', r) && Served(T, r, s'.rs[r], s.now) && NoLaterGrants(s'.rs[r], s.now)
  {
    RouteUptoInv(T, s, r, route, T.npc[r]);
    KeepClocks(T, s, RouteUpto(T, s, r, route, T.npc[r]), r);
  }

  lemma MiddleInv(T: Topo, s: Net, r: int, ch: Choice)
    requires Inv(T, s) && 0 <= r < |s.rs| && RouteOk(T, r, ch.route)
    requires GrantsOk(T, r, s.rs[r], s.now, false, ch.sa)
    requires Served(T, r, s.rs[r], s.now) && NoLaterGrants(s.rs[r], s.now)
    ensures var s' := Middle(T, s, r, ch);
            Inv(T, s') && Elsewhere(s, s', r) && Served(T, r, s'.rs[r], s.now) && NoLaterGrants(s'.rs[r], s.now)
  {
    GrantClocks(T, s, r, false, ch.sa);
    var s1 := GrantUpto(T, s, r, ch.sa, |ch.sa|);
    var s2 := if T.lookahead then RouteUpto(T, s1, r, ch.route, T.npc[r]) else s1;
    if T.lookahead {
      RouteClocks(T, s1, r, ch.route);
      ElsewhereTrans(s, s1, s2, r);
    }
    VAFromInv(T, s2, r, ch.admit, 0);
    var s3 := VAFrom(T, s2, r, ch.admit, 0);
    KeepClocks(T, s2, s3, r);
    ElsewhereTrans(s, s2, s3, r);
  }

  lemma BackInv(T: Topo, s: Net, r: int, ch: Choice)
    requires Inv(T, s) && 0 <= r < |s.rs| && RouteOk(T, r, ch.route)
    requires T.spec ==> GrantsOk(T, r, s.rs[r], s.now, true, ch.ssa)
    requires Served(T, r, s.rs[r], s.now) && NoLaterGrants(s.rs[r], s.now)
    ensures var s' := Back(T, s, r, ch);
            && Inv(T, s') && |s'.rs| == |s.rs| && s'.now == s.now && Rested(T, r, s'.rs[r], s.now) &&
               s'.rs[r].ran == s.now
            && (forall r' {:trigger s'.rs[r']} :: 0 <= r' < |s.rs| && r' != r ==> SameClocks(s.rs[r'], s'.rs[r']))
  {
    var s1 := if T.spec then GrantUpto(T, s, r, ch.ssa, |ch.ssa|) else s;
    if T.spec { GrantClocks(T, s, r, true, ch.ssa); }
    var s2 := if T.lookahead then s1 else RouteUpto(T, s1, r, ch.route, T.npc[r]);
    if !T.lookahead {
      RouteClocks(T, s1, r, ch.route);
      ElsewhereTrans(s, s1, s2, r);
    }
    StampRan(T, s2, r);
    var s' := Back(T, s, r, ch);
    forall op | 0 <= op < T.npc[r] ensures LastLT(s'.rs[r], op) == s.now { assert LastLT(s2.rs[r], op) == s.now; }
    forall op | op in s'.rs[r].c.xown ensures XClk(s'.rs[r], op) <= s.now { assert XClk(s2.rs[r], op) <= s.now; }
    forall r' | 0 <= r' < |s.rs| && r' != r ensures SameClocks(s.rs[r'], s'.rs[r']) {
      assert SameClocks(s.rs[r'], s2.rs[r']);
    }
  }

  lemma StampRan(T: Topo, s: Net, r: int)
    requires Inv(T, s) && 0 <= r < |s.rs|
    ensures Inv(T, Upd(s, r, s.rs[r].(ran := s.now)))
  {
    var x := s.rs[r].(ran := s.now);
    assert Control(T, r, s.rs[r].c) && InsideOk(T, r, s.rs[r]);
    ControlsFrame(T, s, r, x);
    StreamsFrame(T, s, r, x);
    CreditsUntouched(T, s, r, x);
    LinksFrame(T, s, r, x);
    CountsFrame(T, s, r, x);
  }

  lemma SimGood(T: Topo, s: Net, r: int, ch: Choice)
    requires Good(T, s) && 0 <= r < |s.rs| && s.rs[r].ran < s.now && ChoiceOk(T, s, r, ch)
    ensures Good(T, RouterSim(T, s, r, ch))
  {
    assert Rested(T, r, s.rs[r], s.now);
    FrontInv(T, s, r);
    var s1 := Front(T, s, r);
    assert NoLaterGrants(s1.rs[r], s.now) by {
      forall op | op in s1.rs[r].c.xown ensures XClk(s1.rs[r], op) <= s.now { assert XClk(s1.rs[r], op) < s.now; }
    }
    MiddleInv(T, s1, r, ch);
    var s2 := Middle(T, s1, r, ch);
    BackInv(T, s2, r, ch);
    ElsewhereTrans(s, s1, s2, r);
    SimRested(T, s, s2, RouterSim(T, s, r, ch), r);
  }

  lemma SimRested(T: Topo, s: Net, s2: Net, s': Net, r: int)
    requires Sized(T, s) && AllRested(T, s) && Elsewhere(s, s2, r) && 0 <= r < |s.rs|
    requires |s'.rs| == |s.rs| && s'.now == s.now && Rested(T, r, s'.rs[r], s.now)
    requires forall r' {:trigger s'.rs[r']} :: 0 <= r' < |s.rs| && r' != r ==> SameClocks(s2.rs[r'], s'.rs[r'])
    ensures AllRested(T, s')
  {
    forall r' | 0 <= r' < |s.rs| ensures Rested(T, r', s'.rs[r'], s.now) {
      if r' != r {
        assert SameClocks(s.rs[r'], s2.rs[r']) && SameClocks(s2.rs[r'], s'.rs[r']);
        RestedFrame(T, r', s.rs[r'], s'.rs[r'], s.now);
      }
    }
  }

  lemma RestedFrame(T: Topo, r: int, a: RouterState, b: RouterState, now: int)
    requires T.ValidRouter(r) && SameClocks(a, b) && Rested(T, r, a, now)
    ensures Rested(T, r, b, now)
  {
    forall op | 0 <= op < T.npc[r] ensures LastLT(b, op) == b.ran { assert LastLT(a, op) == a.ran; }
    forall op | op in b.c.xown ensures XClk(b, op) <= b.ran { assert XClk(a, op) <= a.ran; }
  }

  // ---------- the other actions ----------

  lemma UpdRested(T: Topo, s: Net, r: int, x: RouterState)
    requires Sized(T, s) && AllRested(T, s) && 0 <= r < |s.rs| && SameClocks(s.rs[r], x)
    ensures AllRested(T, Upd(s, r, x))
  {
    forall r' | 0 <= r' < |s.rs| ensures Rested(T, r', Upd(s, r, x).rs[r'], s.now) {
      assert Rested(T, r', s.rs[r'], s.now);
      if r' == r { RestedFrame(T, r, s.rs[r], x, s.now); }
    }
  }

  lemma TickGood(T: Topo, s: Net)
    requires Good(T, s) && Enabled(T, s, Tick)
    ensures Good(T, s.(now := s.now + 1))
  {
    var s' := s.(now := s.now + 1);
    forall r, op | 0 <= r < |s.rs| ensures LinkOk(T, r, s'.rs[r], s'.now, op) {
      assert LinkOk(T, r, s.rs[r], s.now, op) && InsideOk(T, r, s.rs[r]) && Rested(T, r, s.rs[r], s.now);
      if Link(s.rs[r].link, op) != [] {
        BusyWireKeepsRouterAwake(T, r, s.rs[r], s.now, op);
        assert LastLT(s.rs[r], op) == s.rs[r].ran;
      }
    }
    forall r | 0 <= r < |s.rs| ensures Rested(T, r, s'.rs[r], s'.now) { assert Rested(T, r, s.rs[r], s.now); }
    forall r | 0 <= r < |s.rs| ensures Control(T, r, s'.rs[r].c) && InsideOk(T, r, s'.rs[r]) {
      assert Control(T, r, s.rs[r].c) && InsideOk(T, r, s.rs[r]);
    }
    forall r, k | 0 <= r < |s.rs| && T.ValidVC(r, k) ensures StreamOk(T, s', r, k) {
      assert StreamOk(T, s, r, k);
      assert Arrivals(T, s', r, k) == Arrivals(T, s, r, k);
    }
    TickCredits(T, s);
  }

  lemma TickCredits(T: Topo, s: Net)
    requires Sized(T, s) && Credits(T, s)
    ensures Credits(T, s.(now := s.now + 1))
  {
    var s' := s.(now := s.now + 1);
    forall r, o | 0 <= r < |s.rs| && T.ValidVC(r, o) ensures CreditOk(T, s', r, o) { assert CreditOk(T, s, r, o); }
    forall r, op | 0 <= r < |s.rs| ensures SharedOk(T, r, s'.rs[r], op) { assert SharedOk(T, r, s.rs[r], op); }
    forall r | 0 <= r < |s.rs| ensures DepsOk(T, r, s'.rs[r]) { assert DepsOk(T, r, s.rs[r]); }
  }

  lemma NotFed(T: Topo, r: int, pc: int)
    requires T.Valid() && T.IsEject(r, pc)
    ensures T.Up(Port(r, pc)).None?
  {
    if T.Up(Port(r, pc)).Some? { T.WiredAt(T.Up(Port(r, pc)).value, Port(r, pc)); }
  }

  // Every action keeps the invariant.
  lemma StepGood(T: Topo, s: Net, a: Action)
    requires Good(T, s) && Enabled(T, s, a)
    ensures Good(T, Do(T, s, a))
  {
    match a
    case Sim(r, ch) => SimGood(T, s, r, ch);
    case Begin(r, k, pkt, start, n) =>
      NotFed(T, r, k.pc);
      ReserveInv(T, s, r, k, pkt, start, n);
      UpdRested(T, s, r, Reserve(s.rs[r], k, pkt, start, n));
    case Write(r, k) =>
      NotFed(T, r, k.pc);
      InjectInv(T, s, r, k);
      UpdRested(T, s, r, Inject(s.rs[r], k));
    case Tick => TickGood(T, s);
  }

  // ---------- runs ----------

  ghost predicate Run(T: Topo, s: Net, acts: seq<Action>, s': Net)
    requires Sized(T, s)
    decreases |acts|
  {
    if acts == [] then s' == s
    else Enabled(T, s, acts[0]) && Sized(T, Do(T, s, acts[0])) && Run(T, Do(T, s, acts[0]), acts[1..], s')
  }

  ghost predicate Reachable(T: Topo, s: Net) {
    T.Valid() && exists acts :: Run(T, Init(T), acts, s)
  }

  lemma {:induction false} RunGood(T: Topo, s: Net, acts: seq<Action>, s': Net)
    requires Good(T, s) && Run(T, s, acts, s')
    ensures Good(T, s')
    decreases |acts|
  {
    if acts != [] {
      StepGood(T, s, acts[0]);
      RunGood(T, Do(T, s, acts[0]), acts[1..], s');
    }
  }

  lemma {:induction false} RunAppend(T: Topo, s: Net, acts: seq<Action>, s': Net, a: Action)
    requires Good(T, s) && Run(T, s, acts, s') && Sized(T, s') && Enabled(T, s', a)
    ensures Run(T, s, acts + [a], Do(T, s', a))
    decreases |acts|
  {
    StepGood(T, s, (acts + [a])[0]) by {
      if acts == [] { assert (acts + [a])[0] == a; } else { assert (acts + [a])[0] == acts[0]; }
    }
    if acts == [] {
      assert (acts + [a])[1..] == [];
    } else {
      assert (acts + [a])[1..] == acts[1..] + [a];
      RunAppend(T, Do(T, s, acts[0]), acts[1..], s', a);
    }
  }

  // An action taken in a reachable state leads to a reachable state.
  lemma ReachableStep(T: Topo, s: Net, a: Action)
    requires Reachable(T, s) && Sized(T, s) && Enabled(T, s, a)
    ensures Reachable(T, Do(T, s, a))
  {
    InitGood(T);
    var acts :| Run(T, Init(T), acts, s);
    RunAppend(T, Init(T), acts, s, a);
  }

  // router_sim leaves the clocks of the other routers alone.
  lemma SimOthers(T: Topo, s: Net, r: int, ch: Choice)
    requires Good(T, s) && 0 <= r < |s.rs| && s.rs[r].ran < s.now && ChoiceOk(T, s, r, ch)
    ensures var s' := RouterSim(T, s, r, ch);
            && |s'.rs| == |s.rs| && s'.now == s.now && s'.rs[r].ran == s.now
            && (forall r' {:trigger s'.rs[r']} :: 0 <= r' < |s.rs| && r' != r ==> s'.rs[r'].ran == s.rs[r'].ran)
  {
    assert Rested(T, r, s.rs[r], s.now);
    FrontInv(T, s, r);
    var s1 := Front(T, s, r);
    forall op | op in s1.rs[r].c.xown ensures XClk(s1.rs[r], op) <= s.now { assert XClk(s1.rs[r], op) < s.now; }
    MiddleInv(T, s1, r, ch);
    var s2 := Middle(T, s1, r, ch);
    BackInv(T, s2, r, ch);
    ElsewhereTrans(s, s1, s2, r);
    var s' := RouterSim(T, s, r, ch);
    forall r' | 0 <= r' < |s.rs| && r' != r ensures s'.rs[r'].ran == s.rs[r'].ran {
      assert SameClocks(s.rs[r'], s2.rs[r']) && SameClocks(s2.rs[r'], s'.rs[r']);
    }
  }

  lemma ReachableGood(T: Topo, s: Net)
    requires Reachable(T, s)
    ensures Good(T, s)
  {
    InitGood(T);
    var acts :| Run(T, Init(T), acts, s);
    RunGood(T, Init(T), acts, s);
  }

  // Between two ticks: the routers of todo have not run in this cycle, the others have.
  ghost predicate Turn(s: Net, todo: set<int>, now: int) {
    forall i {:trigger s.rs[i]} :: 0 <= i < |s.rs| ==> if i in todo then s.rs[i].ran < now else s.rs[i].ran == now
  }

  ghost predicate InCycle(T: Topo, s: Net, todo: set<int>, now: int) {
    Reachable(T, s) && s.now == now && Turn(s, todo, now)
  }

  lemma SimReachable(T: Topo, s: Net, r: int, ch: Choice, todo: set<int>)
    requires InCycle(T, s, todo, s.now) && Good(T, s) && 0 <= r < |s.rs| && r in todo && ChoiceOk(T, s, r, ch)
    ensures InCycle(T, RouterSim(T, s, r, ch), todo - {r}, s.now)
  {
    SimOthers(T, s, r, ch);
    ReachableStep(T, s, Sim(r, ch));
  }

  lemma ReachableSized(T: Topo, s: Net)
    requires Reachable(T, s)
    ensures Sized(T, s)
  {
    ReachableGood(T, s);
  }

  lemma TickEnabled(T: Topo, s: Net, todo: set<int>)
    requires Sized(T, s) && Turn(s, todo, s.now)
    requires forall i {:trigger s.rs[i]} :: 0 <= i < |s.rs| && i in todo ==> s.rs[i].inside == 0
    ensures Enabled(T, s, Tick)
  {}

  lemma TickTurn(s: Net, todo: set<int>, all: set<int>)
    requires Turn(s, todo, s.now) && forall i :: 0 <= i < |s.rs| ==> i in all
    ensures Turn(s.(now := s.now + 1), all, s.now + 1)
  {}

  lemma TickReach(T: Topo, s: Net, s': Net)
    requires Reachable(T, s) && Sized(T, s) && Enabled(T, s, Tick) && s' == Do(T, s, Tick)
    ensures Reachable(T, s')
  {
    ReachableStep(T, s, Tick);
  }

  // When every router that has not run has no flits inside, time may pass.
  lemma TickReachable(T: Topo, s: Net, todo: set<int>, all: set<int>)
    requires InCycle(T, s, todo, s.now) && forall i :: 0 <= i < |s.rs| ==> i in all
    requires forall i {:trigger s.rs[i]} :: 0 <= i < |s.rs| && i in todo ==> s.rs[i].inside == 0
    ensures InCycle(T, s.(now := s.now + 1), all, s.now + 1)
  {
    ReachableSized(T, s);
    TickEnabled(T, s, todo);
    TickTurn(s, todo, all);
    TickReach(T, s, s.(now := s.now + 1));
  }
}
