// What can move does move: a router that runs with a movable flit in it changes something, but for the rounds in
// which the flit's input port picks another of its VCs.

module Moving {
  import opened Wiring
  import opened Flits
  import opened Protocol
  import opened Invariant
  import opened ControlProofs
  import opened StepProofs
  import opened Stages
  import opened StageProofs
  import opened Runs
  import opened Changes
  import opened Priorities
  import opened Arbiter
  import opened SwArb
  import opened Folds
  import opened Timing
  import opened RoutedPackets
  import opened Progress
  import opened Fairness

  function Height(st: InState): nat { match st case I => 0 case R => 1 case V => 2 case S => 3 }

  // The later stages move no flit: input modules only go on, and whoever waits for the crossbar goes on waiting.
  ghost predicate Ascends(T: Topo, r: int, c: Ctl, c': Ctl) {
    && c'.q == c.q && c'.got == c.got
    && (forall k {:trigger In(c', k)} :: T.ValidVC(r, k) ==>
          Height(In(c, k).st) < Height(In(c', k).st) || In(c', k) == In(c, k))
    && (forall ip {:trigger Waiting(c', ip)} :: Waiting(c, ip) != INVALID_VC ==> Waiting(c', ip) != INVALID_VC)
  }

  // Nothing has moved: every input module is in the state it was in, and the crossbar waits for what it waited for.
  ghost predicate Unmoved(T: Topo, r: int, c: Ctl, c': Ctl) {
    && (forall k {:trigger In(c', k)} :: T.ValidVC(r, k) ==> In(c', k).st == In(c, k).st)
    && (forall ip {:trigger Waiting(c', ip)} :: Waiting(c', ip) == Waiting(c, ip))
  }

  lemma AscendsTrans(T: Topo, r: int, a: Ctl, b: Ctl, c: Ctl)
    requires Ascends(T, r, a, b) && Ascends(T, r, b, c)
    ensures Ascends(T, r, a, c)
  {
    forall k | T.ValidVC(r, k) ensures Height(In(a, k).st) < Height(In(c, k).st) || In(c, k) == In(a, k) {
      assert Height(In(a, k).st) < Height(In(b, k).st) || In(b, k) == In(a, k);
    }
    forall ip ensures Waiting(a, ip) != INVALID_VC ==> Waiting(c, ip) != INVALID_VC {
      assert Waiting(a, ip) != INVALID_VC ==> Waiting(b, ip) != INVALID_VC;
    }
  }

  // ---------- the stages ----------

  ghost predicate Named(gs: seq<VC>) { forall i {:trigger gs[i]} :: 0 <= i < |gs| ==> gs[i].vc != INVALID_VC }

  lemma GrantRises(T: Topo, r: int, c: Ctl, k: VC)
    requires k in c.sw && Q(c, k) != [] && k.vc != INVALID_VC
    ensures Ascends(T, r, c, Grant(c, k)) && Waiting(Grant(c, k), k.pc) != INVALID_VC
  {}

  lemma {:induction false} GrantsRise(T: Topo, s: Net, r: int, gs: seq<VC>, n: nat)
    requires Sized(T, s) && 0 <= r < |s.rs| && n <= |gs| && Named(gs)
    ensures Ascends(T, r, s.rs[r].c, GrantUpto(T, s, r, gs, n).rs[r].c)
    ensures GrantUpto(T, s, r, gs, n).rs[r].c.busy == s.rs[r].c.busy
  {
    if n > 0 {
      GrantsRise(T, s, r, gs, n - 1);
      var c, k := GrantUpto(T, s, r, gs, n - 1).rs[r].c, gs[n - 1];
      if k in c.sw && Q(c, k) != [] {
        GrantRises(T, r, c, k);
        AscendsTrans(T, r, s.rs[r].c, c, Grant(c, k));
      }
    }
  }

  // After the first grant its input port waits for the crossbar.
  lemma {:induction false} GrantWaits(T: Topo, s: Net, r: int, gs: seq<VC>, n: nat)
    requires Sized(T, s) && 0 <= r < |s.rs| && 1 <= n <= |gs| && Named(gs)
    requires gs[0] in s.rs[r].c.sw && Q(s.rs[r].c, gs[0]) != []
    ensures Waiting(GrantUpto(T, s, r, gs, n).rs[r].c, gs[0].pc) != INVALID_VC
  {
    if n == 1 {
      GrantRises(T, r, s.rs[r].c, gs[0]);
    } else {
      GrantWaits(T, s, r, gs, n - 1);
      var c, k := GrantUpto(T, s, r, gs, n - 1).rs[r].c, gs[n - 1];
      if k in c.sw && Q(c, k) != [] { GrantRises(T, r, c, k); }
    }
  }

  lemma RouteRises(T: Topo, r: int, c: Ctl, c': Ctl, route: VC -> Option<int>)
    requires RoutedAll(T, r, c, c', route)
    ensures Ascends(T, r, c, c')
  {
    forall ip ensures Waiting(c', ip) == Waiting(c, ip) {}
  }

  lemma AllocateRises(T: Topo, r: int, c: Ctl, i: nat, ov: int, now: int)
    requires i < |c.reqQ| && In(c, c.reqQ[i].0).st.R?
    ensures Ascends(T, r, c, Allocate(c, i, ov, now)) && In(Allocate(c, i, ov, now), c.reqQ[i].0).st.V?
  {
    forall ip ensures Waiting(Allocate(c, i, ov, now), ip) == Waiting(c, ip) {}
  }

  // The i-th request is given an output VC.
  lemma VAStep(T: Topo, s: Net, r: int, admit: (int, VC, int) -> bool, i: nat, ov: int) returns (s1: Net)
    requires Inv(T, s) && 0 <= r < |s.rs| && i < |s.rs[r].c.reqQ|
    requires FirstVC(T, s.rs[r].c, admit, s.rs[r].c.reqQ[i].0, s.rs[r].c.reqQ[i].1, 0) == Some(ov)
    ensures s1 == Upd(s, r, s.rs[r].(c := Allocate(s.rs[r].c, i, ov, s.now))) && Inv(T, s1)
    ensures VAFrom(T, s, r, admit, i) == VAFrom(T, s1, r, admit, i) && T.ValidVC(r, s.rs[r].c.reqQ[i].0)
    ensures Ascends(T, r, s.rs[r].c, s1.rs[r].c) && In(s1.rs[r].c, s.rs[r].c.reqQ[i].0).st.V?
    ensures In(s.rs[r].c, s.rs[r].c.reqQ[i].0).st.R? && |s1.rs[r].c.reqQ| == |s.rs[r].c.reqQ| - 1
  {
    var c := s.rs[r].c;
    assert Control(T, r, c);
    FirstVCIs(T, c, admit, c.reqQ[i].0, c.reqQ[i].1, 0);
    AllocateInv(T, s, r, i, ov);
    AllocateRises(T, r, c, i, ov, s.now);
    s1 := Upd(s, r, s.rs[r].(c := Allocate(c, i, ov, s.now)));
  }

  lemma {:induction false} VARises(T: Topo, s: Net, r: int, admit: (int, VC, int) -> bool, i: nat)
    requires Inv(T, s) && 0 <= r < |s.rs| && i <= |s.rs[r].c.reqQ|
    ensures Ascends(T, r, s.rs[r].c, VAFrom(T, s, r, admit, i).rs[r].c)
    decreases |s.rs[r].c.reqQ| - i
  {
    var c := s.rs[r].c;
    if i < |c.reqQ| {
      var x := FirstVC(T, c, admit, c.reqQ[i].0, c.reqQ[i].1, 0);
      if x.None? {
        VARises(T, s, r, admit, i + 1);
      } else {
        var s1 := VAStep(T, s, r, admit, i, x.value);
        VARises(T, s1, r, admit, i);
        AscendsTrans(T, r, c, s1.rs[r].c, VAFrom(T, s, r, admit, i).rs[r].c);
      }
    }
  }

  // If some request finds an output VC, some input VC goes on to state V.
  lemma {:induction false} VAActs(T: Topo, s: Net, r: int, admit: (int, VC, int) -> bool, i: nat, j: nat)
    returns (k: VC)
    requires Inv(T, s) && 0 <= r < |s.rs| && i <= j < |s.rs[r].c.reqQ|
    requires FirstVC(T, s.rs[r].c, admit, s.rs[r].c.reqQ[j].0, s.rs[r].c.reqQ[j].1, 0).Some?
    ensures T.ValidVC(r, k) && Height(In(s.rs[r].c, k).st) < Height(In(VAFrom(T, s, r, admit, i).rs[r].c, k).st)
    decreases j - i
  {
    var c := s.rs[r].c;
    var x := FirstVC(T, c, admit, c.reqQ[i].0, c.reqQ[i].1, 0);
    if x.None? {
      k := VAActs(T, s, r, admit, i + 1, j);
    } else {
      k := c.reqQ[i].0;
      var s1 := VAStep(T, s, r, admit, i, x.value);
      VARises(T, s1, r, admit, i);
    }
  }

  // ---------- one call of router_sim ----------

  // Nothing is on the router's wires or in its crossbar, and no credit on its way to it.
  ghost predicate AtRest(rs: RouterState) {
    && rs.deps == [] && (forall op {:trigger Link(rs.link, op)} :: Link(rs.link, op) == [])
    && (forall ip {:trigger Waiting(rs.c, ip)} :: Waiting(rs.c, ip) == INVALID_VC)
  }

  // The first stages of such a router do no more than ask for the switch.
  lemma FrontAsks(T: Topo, s: Net, r: int)
    requires Sized(T, s) && 0 <= r < |s.rs| && AtRest(s.rs[r])
    ensures var f := Front(T, s, r);
            AskedAll(T, r, s.rs[r].c, f.rs[r].c) && f.rs[r].cred == s.rs[r].cred && f.now == s.now
  {
    assert IncAll(T, s, r) == s;
    forall op ensures !Due(T, s, r, op) { assert Link(s.rs[r].link, op) == []; }
    LTRuns(T, s, r, T.npc[r]);
    var s1 := LTUpto(T, s, r, T.npc[r]);
    STNone(T, s1, r, T.npc[r]);
    var c' := AskIs(T, s1, r);
  }

  // The states of the router after stageSA, before and after stageVA, after stageSSA and at the end.
  ghost predicate Chain(T: Topo, f: Net, r: int, ch: Choice, u1: Net, u2: Net, v: Net, w1: Net, w2: Net)
    requires Sized(T, f) && 0 <= r < |f.rs|
  {
    && Sized(T, u1) && Sized(T, u2) && Sized(T, v) && Sized(T, w1) && Sized(T, w2)
    && u1 == GrantUpto(T, f, r, ch.sa, |ch.sa|)
    && u2 == (if T.lookahead then RouteUpto(T, u1, r, ch.route, T.npc[r]) else u1)
    && v == VAFrom(T, u2, r, ch.admit, 0) && w1 == (if T.spec then GrantUpto(T, v, r, ch.ssa, |ch.ssa|) else v)
    && w2 == (if T.lookahead then w1 else RouteUpto(T, w1, r, ch.route, T.npc[r]))
    && Inv(T, u2)
  }

  lemma ChainIs(T: Topo, f: Net, r: int, ch: Choice) returns (u1: Net, u2: Net, v: Net, w1: Net, w2: Net)
    requires Inv(T, f) && 0 <= r < |f.rs| && RouteOk(T, r, ch.route) && GrantsOk(T, r, f.rs[r], f.now, false, ch.sa)
    ensures Chain(T, f, r, ch, u1, u2, v, w1, w2)
    ensures Back(T, Middle(T, f, r, ch), r, ch).rs[r].c == w2.rs[r].c
    ensures BeforeVA(T, f, r, ch) == u2 && BeforeRC(T, f, r, ch) == if T.lookahead then u1 else w1
  {
    u1 := GrantUpto(T, f, r, ch.sa, |ch.sa|);
    GrantUptoInv(T, f, r, false, ch.sa, |ch.sa|);
    u2 := if T.lookahead then RouteUpto(T, u1, r, ch.route, T.npc[r]) else u1;
    if T.lookahead { RouteUptoInv(T, u1, r, ch.route, T.npc[r]); }
    v := VAFrom(T, u2, r, ch.admit, 0);
    w1 := if T.spec then GrantUpto(T, v, r, ch.ssa, |ch.ssa|) else v;
    w2 := if T.lookahead then w1 else RouteUpto(T, w1, r, ch.route, T.npc[r]);
  }

  lemma RoutesRise(T: Topo, s: Net, r: int, route: VC -> Option<int>)
    requires Sized(T, s) && 0 <= r < |s.rs|
    ensures Ascends(T, r, s.rs[r].c, RouteUpto(T, s, r, route, T.npc[r]).rs[r].c)
    ensures RouteUpto(T, s, r, route, T.npc[r]).rs[r].c.busy == s.rs[r].c.busy
    ensures RoutedAll(T, r, s.rs[r].c, RouteUpto(T, s, r, route, T.npc[r]).rs[r].c, route)
  {
    var c' := RouteIs(T, s, r, route);
    RouteRises(T, r, s.rs[r].c, c', route);
  }

  lemma AscendsSelf(T: Topo, r: int, c: Ctl)
    ensures Ascends(T, r, c, c)
  {}

  // Every stage ascends.
  ghost predicate Rising(T: Topo, r: int, f: Net, u1: Net, u2: Net, v: Net, w1: Net, w2: Net)
    requires 0 <= r < |f.rs| == |u1.rs| == |u2.rs| == |v.rs| == |w1.rs| == |w2.rs|
  {
    && Ascends(T, r, f.rs[r].c, u1.rs[r].c) && Ascends(T, r, u1.rs[r].c, u2.rs[r].c) &&
       Ascends(T, r, u2.rs[r].c, v.rs[r].c)
    && Ascends(T, r, v.rs[r].c, w1.rs[r].c) && Ascends(T, r, w1.rs[r].c, w2.rs[r].c)
    && u2.rs[r].c.busy == f.rs[r].c.busy
  }

  lemma ChainRises(T: Topo, f: Net, r: int, ch: Choice, u1: Net, u2: Net, v: Net, w1: Net, w2: Net)
    requires Sized(T, f) && 0 <= r < |f.rs| && Chain(T, f, r, ch, u1, u2, v, w1, w2)
    requires Named(ch.sa) && (T.spec ==> Named(ch.ssa))
    ensures Rising(T, r, f, u1, u2, v, w1, w2)
  {
    GrantsRise(T, f, r, ch.sa, |ch.sa|);
    AscendsSelf(T, r, u1.rs[r].c);
    AscendsSelf(T, r, v.rs[r].c);
    AscendsSelf(T, r, w1.rs[r].c);
    if T.lookahead { RoutesRise(T, u1, r, ch.route); } else { RoutesRise(T, w1, r, ch.route); }
    VARises(T, u2, r, ch.admit, 0);
    if T.spec { GrantsRise(T, v, r, ch.ssa, |ch.ssa|); }
  }

  // Between two states between which nothing has moved, nothing has.
  lemma Pinched(T: Topo, r: int, a: Ctl, b: Ctl, c: Ctl)
    requires Ascends(T, r, a, b) && Ascends(T, r, b, c) && Unmoved(T, r, a, c)
    ensures forall k {:trigger In(b, k)} :: T.ValidVC(r, k) ==> In(b, k) == In(a, k)
    ensures forall ip {:trigger Waiting(b, ip)} :: Waiting(b, ip) != INVALID_VC ==> Waiting(a, ip) != INVALID_VC
  {
    forall k | T.ValidVC(r, k) ensures In(b, k) == In(a, k) {
      assert In(c, k).st == In(a, k).st;
      assert Height(In(b, k).st) <= Height(In(c, k).st);
    }
    forall ip | Waiting(b, ip) != INVALID_VC ensures Waiting(a, ip) != INVALID_VC {
      assert Waiting(c, ip) == Waiting(a, ip) && Waiting(c, ip) != INVALID_VC;
    }
  }

  // In a call in which nothing moves nothing moves in any stage.
  lemma NothingMoves(T: Topo, r: int, f: Net, u1: Net, u2: Net, v: Net, w1: Net, w2: Net)
    requires 0 <= r < |f.rs| == |u1.rs| == |u2.rs| == |v.rs| == |w1.rs| == |w2.rs|
    requires Rising(T, r, f, u1, u2, v, w1, w2) && Unmoved(T, r, f.rs[r].c, w2.rs[r].c)
    ensures forall k {:trigger In(f.rs[r].c, k)} {:trigger In(u2.rs[r].c, k)} :: T.ValidVC(r, k) ==>
              In(u1.rs[r].c, k) == In(u2.rs[r].c, k) == In(v.rs[r].c, k) == In(w1.rs[r].c, k) == In(f.rs[r].c, k)
    ensures forall ip {:trigger Waiting(u1.rs[r].c, ip)} ::
              Waiting(u1.rs[r].c, ip) != INVALID_VC ==> Waiting(f.rs[r].c, ip) != INVALID_VC
  {
    var a, b, c, d, e, z := f.rs[r].c, u1.rs[r].c, u2.rs[r].c, v.rs[r].c, w1.rs[r].c, w2.rs[r].c;
    AscendsTrans(T, r, a, b, c);
    AscendsTrans(T, r, a, c, d);
    AscendsTrans(T, r, a, d, e);
    AscendsTrans(T, r, d, e, z);
    AscendsTrans(T, r, c, d, z);
    AscendsTrans(T, r, b, c, z);
    Pinched(T, r, a, b, z);
    Pinched(T, r, a, c, z);
    Pinched(T, r, a, d, z);
    Pinched(T, r, a, e, z);
    forall k | T.ValidVC(r, k) ensures In(b, k) == In(c, k) == In(d, k) == In(e, k) == In(a, k) {}
  }

  // ---------- a call in which nothing moves ----------

  // Router r, in which nothing is under way and into which nothing has come in this cycle, runs, and nothing moves.
  ghost predicate Idles(T: Topo, g: Routing, m: Moment, r: int, ch: Choice) {
    && Timed(T, m) && LawfulReachable(T, g, m.net) && 0 <= r < |m.net.rs| && m.net.rs[r].ran < m.net.now
    && AtRest(m.net.rs[r]) && m.start.rs[r].c.got == m.net.rs[r].c.got && m.start.rs[r].c.q == m.net.rs[r].c.q
    && ExactChoice(T, g, m, r, ch) && Unmoved(T, r, m.net.rs[r].c, RouterSim(T, m.net, r, ch).rs[r].c)
  }

  // What is known of its stages: f is the state after the first of them.
  ghost predicate Standstill(T: Topo, g: Routing, m: Moment, r: int, ch: Choice, f: Net, u1: Net, u2: Net, v: Net,
                             w1: Net, w2: Net)
    requires Timed(T, m) && 0 <= r < |m.net.rs|
  {
    && f == Front(T, m.net, r) && Inv(T, f) && Chain(T, f, r, ch, u1, u2, v, w1, w2) &&
       Rising(T, r, f, u1, u2, v, w1, w2)
    && AskedAll(T, r, m.net.rs[r].c, f.rs[r].c) && f.rs[r].cred == m.net.rs[r].cred && f.now == m.net.now
    && Unmoved(T, r, f.rs[r].c, w2.rs[r].c) && GrantsOk(T, r, f.rs[r], f.now, false, ch.sa)
    && BeforeVA(T, f, r, ch) == u2 && BeforeRC(T, f, r, ch) == (if T.lookahead then u1 else w1)
  }

  lemma GrantsNamed(T: Topo, r: int, rs: RouterState, now: int, spec: bool, gs: seq<VC>)
    requires GrantsOk(T, r, rs, now, spec, gs)
    ensures Named(gs)
  {
    forall i | 0 <= i < |gs| ensures gs[i].vc != INVALID_VC { assert GrantOk(T, r, rs, gs[i]); }
  }

  lemma IdleFront(T: Topo, g: Routing, m: Moment, r: int, ch: Choice) returns (f: Net)
    requires Idles(T, g, m, r, ch)
    ensures f == Front(T, m.net, r) && Inv(T, f) && ChoiceOk(T, m.net, r, ch)
    ensures AskedAll(T, r, m.net.rs[r].c, f.rs[r].c) && f.rs[r].cred == m.net.rs[r].cred && f.now == m.net.now
  {
    LawfulGood(T, g, m.net);
    ExactIsOk(T, g, m, r, ch);
    assert Rested(T, r, m.net.rs[r], m.net.now);
    FrontInv(T, m.net, r);
    FrontAsks(T, m.net, r);
    f := Front(T, m.net, r);
  }

  lemma IdleChain(T: Topo, s: Net, r: int, ch: Choice, f: Net) returns (u1: Net, u2: Net, v: Net, w1: Net, w2: Net)
    requires Sized(T, s) && 0 <= r < |s.rs| && f == Front(T, s, r) && f.now == s.now && Inv(T, f) &&
             ChoiceOk(T, s, r, ch)
    ensures Chain(T, f, r, ch, u1, u2, v, w1, w2) && Rising(T, r, f, u1, u2, v, w1, w2)
    ensures RouterSim(T, s, r, ch).rs[r].c == w2.rs[r].c && GrantsOk(T, r, f.rs[r], f.now, false, ch.sa)
    ensures BeforeVA(T, f, r, ch) == u2 && BeforeRC(T, f, r, ch) == if T.lookahead then u1 else w1
  {
    u1, u2, v, w1, w2 := ChainIs(T, f, r, ch);
    GrantsNamed(T, r, f.rs[r], f.now, false, ch.sa);
    if T.spec { GrantsNamed(T, r, Middle(T, f, r, ch).rs[r], s.now, true, ch.ssa); }
    ChainRises(T, f, r, ch, u1, u2, v, w1, w2);
  }

  lemma AskedUnmoved(T: Topo, r: int, c: Ctl, c1: Ctl, c2: Ctl)
    requires AskedAll(T, r, c, c1) && Unmoved(T, r, c, c2)
    ensures Unmoved(T, r, c1, c2)
  {
    forall k | T.ValidVC(r, k) ensures In(c2, k).st == In(c1, k).st { assert In(c2, k).st == In(c, k).st; }
    forall ip ensures Waiting(c2, ip) == Waiting(c1, ip) { assert Waiting(c2, ip) == Waiting(c, ip); }
  }

  lemma IdleStages(T: Topo, g: Routing, m: Moment, r: int, ch: Choice)
    returns (f: Net, u1: Net, u2: Net, v: Net, w1: Net, w2: Net)
    requires Idles(T, g, m, r, ch)
    ensures Standstill(T, g, m, r, ch, f, u1, u2, v, w1, w2)
  {
    f := IdleFront(T, g, m, r, ch);
    u1, u2, v, w1, w2 := IdleChain(T, m.net, r, ch, f);
    AskedUnmoved(T, r, m.net.rs[r].c, f.rs[r].c, w2.rs[r].c);
  }

  // The flit in front of an idle input VC is a head flit, and of the packet the VC carries.
  lemma FrontHead(T: Topo, s: Net, r: int, k: VC)
    requires Inv(T, s) && 0 <= r < |s.rs| && T.ValidVC(r, k) && Q(s.rs[r].c, k) != []
    ensures Q(s.rs[r].c, k)[0].IsHead() <==> !Mid(Got(s.rs[r].c, k))
    ensures !Mid(Got(s.rs[r].c, k)) ==> Current(s.rs[r].c, k) == Q(s.rs[r].c, k)[0].pkt
  {
    var c := s.rs[r].c;
    assert Control(T, r, c);
    assert Wormhole(Here(c, k));
    WormholeCut(Got(c, k), Q(c, k));
  }

  // A head flit that has been here since the cycle began, and lies there as it did, is routed.
  lemma HeadRouted(T: Topo, g: Routing, start: Net, s: Net, x: Net, r: int, k: VC, route: VC -> Option<int>)
    requires Inv(T, s) && Sized(T, x) && 0 <= r < |s.rs| == |start.rs| && T.ValidVC(r, k) && Q(s.rs[r].c, k) != []
    requires start.rs[r].c.got == s.rs[r].c.got == x.rs[r].c.got && start.rs[r].c.q == s.rs[r].c.q == x.rs[r].c.q
    requires In(s.rs[r].c, k).st.I? && In(x.rs[r].c, k) == In(s.rs[r].c, k) && ExactRoute(g, start, r, x.rs[r].c, route)
    ensures In(RouteUpto(T, x, r, route, T.npc[r]).rs[r].c, k).st.R?
  {
    assert Control(T, r, s.rs[r].c);
    assert InOk(T, r, s.rs[r].c, k);
    FrontHead(T, s, r, k);
    assert Got(x.rs[r].c, k) == Got(start.rs[r].c, k) && Q(x.rs[r].c, k) == Q(start.rs[r].c, k);
    assert !EnteredNow(start, r, x.rs[r].c, k);
    assert route(k).Some?;
    RoutesRise(T, x, r, route);
  }

  // It does not happen with a head flit that is still to be routed ...
  lemma RoutesOn(T: Topo, g: Routing, m: Moment, r: int, k: VC, ch: Choice, f: Net, u1: Net, u2: Net, v: Net, w1: Net,
                 w2: Net)
    requires Idles(T, g, m, r, ch) && Standstill(T, g, m, r, ch, f, u1, u2, v, w1, w2) && T.ValidVC(r, k)
    requires Q(m.net.rs[r].c, k) != []
    ensures !In(m.net.rs[r].c, k).st.I?
  {
    NothingMoves(T, r, f, u1, u2, v, w1, w2);
    if In(m.net.rs[r].c, k).st.I? {
      LawfulGood(T, g, m.net);
      assert In(f.rs[r].c, k).st.I?;
      HeadRouted(T, g, m.start, m.net, if T.lookahead then u1 else w1, r, k, ch.route);
    }
  }

  // ... nor with one an output VC of whose port is free ...
  lemma FindsVC(T: Topo, g: Routing, s: Net, r: int, k: VC, admit: (int, VC, int) -> bool, ov: int) returns (j: nat)
    requires Inv(T, s) && 0 <= r < |s.rs| && T.ValidVC(r, k) && In(s.rs[r].c, k).st.R? && 0 <= ov < T.nvc
    requires ExactAdmit(T, g, r, s.rs[r].c, admit) && VC(In(s.rs[r].c, k).outPc, ov) !in s.rs[r].c.busy
    requires g.admits(r, k, Current(s.rs[r].c, k), In(s.rs[r].c, k).outPc, ov)
    ensures var q := s.rs[r].c.reqQ;
            j < |q| && FirstVC(T, s.rs[r].c, admit, q[j].0, q[j].1, 0).Some?
  {
    var c := s.rs[r].c;
    assert Control(T, r, c);
    assert InOk(T, r, c, k);
    FrontHead(T, s, r, k);
    var op := In(c, k).outPc;
    assert admit(ov, k, op);
    j :| 0 <= j < |c.reqQ| && c.reqQ[j] == (k, op);
    FirstVCIs(T, c, admit, k, op, 0);
  }

  lemma CurrentSame(c: Ctl, c': Ctl, k: VC)
    requires c'.q == c.q && c'.got == c.got
    ensures Current(c', k) == Current(c, k)
  {}

  lemma AllocatesOn(T: Topo, g: Routing, m: Moment, r: int, k: VC, ch: Choice, f: Net, u1: Net, u2: Net, v: Net,
                    w1: Net, w2: Net)
    requires Idles(T, g, m, r, ch) && Standstill(T, g, m, r, ch, f, u1, u2, v, w1, w2) && Movable(T, g, m.net, r, k)
    ensures !In(m.net.rs[r].c, k).st.R?
  {
    NothingMoves(T, r, f, u1, u2, v, w1, w2);
    var c := m.net.rs[r].c;
    if In(c, k).st.R? {
      var ov :| 0 <= ov < T.nvc && g.admits(r, k, Current(c, k), In(c, k).outPc, ov) &&
        VC(In(c, k).outPc, ov) !in c.busy;
      assert In(f.rs[r].c, k) == In(c, k);
      CurrentSame(c, u2.rs[r].c, k);
      var j := FindsVC(T, g, u2, r, k, ch.admit, ov);
      var k' := VAActs(T, u2, r, ch.admit, 0, j);
    }
  }

  // ... and with one that has a credit only if its input port picks another VC.
  lemma AsksAt(T: Topo, s: Net, f: Net, r: int, k: VC)
    requires Inv(T, s) && 0 <= r < |s.rs| && 0 <= r < |f.rs| && T.ValidVC(r, k) && Q(s.rs[r].c, k) != []
    requires AtRest(s.rs[r]) && AskedAll(T, r, s.rs[r].c, f.rs[r].c)
    requires In(s.rs[r].c, k).st.V? || In(s.rs[r].c, k).st.S?
    ensures k in f.rs[r].c.sw
  {
    assert Control(T, r, s.rs[r].c);
    assert InOk(T, r, s.rs[r].c, k) && Waiting(s.rs[r].c, k.pc) == INVALID_VC;
    FrontHead(T, s, r, k);
  }

  // The request of such a flit could be served.
  lemma OpenAt(T: Topo, s: Net, f: Net, r: int, k: VC)
    requires Inv(T, f) && 0 <= r < |s.rs| && 0 <= r < |f.rs| && T.ValidVC(r, k) && k in f.rs[r].c.sw
    requires AtRest(s.rs[r]) && AskedAll(T, r, s.rs[r].c, f.rs[r].c) && f.rs[r].cred == s.rs[r].cred
    requires var x := In(s.rs[r].c, k); T.IsEject(r, x.outPc) || HasCredit(T, s.rs[r].cred, VC(x.outPc, x.outVc))
    ensures Requests(T, r, f, false).asks(k) && Requests(T, r, f, false).open(k)
    ensures 0 <= Requests(T, r, f, false).out(k) < T.npc[r]
  {
    var c := f.rs[r].c;
    assert Control(T, r, c);
    assert InOk(T, r, c, k);
    var op := c.sw[k].outPc;
    assert XOk(T, r, c, op);
    forall ip ensures Waiting(c, ip) == INVALID_VC { assert Waiting(s.rs[r].c, ip) == INVALID_VC; }
    assert Waiting(c, k.pc) == INVALID_VC;
  }

  // An input VC that its port picks and that could be served, or another for the same output port, is granted.
  lemma SomeGrant(a: Arb, e: Env, npc: nat, nvc: nat, k: VC)
    requires ValidArb(a, npc, nvc) && 0 <= k.pc < npc && e.open(k) && 0 <= e.out(k) < npc &&
             V1Pick(a, e, k.pc) == Some(k.vc)
    ensures Grants(a, e, npc) != []
  {
    assert Competes(a, e, e.out(k), k.pc);
    NoIdleOutput(a, e, npc, nvc, e.out(k), k.pc);
  }

  lemma GrantMoves(T: Topo, f: Net, r: int, gs: seq<VC>)
    requires Inv(T, f) && 0 <= r < |f.rs| && GrantsOk(T, r, f.rs[r], f.now, false, gs) && gs != []
    ensures Waiting(GrantUpto(T, f, r, gs, |gs|).rs[r].c, gs[0].pc) != INVALID_VC
  {
    assert GrantOk(T, r, f.rs[r], gs[0]);
    assert Control(T, r, f.rs[r].c);
    assert InOk(T, r, f.rs[r].c, gs[0]);
    GrantsNamed(T, r, f.rs[r], f.now, false, gs);
    GrantWaits(T, f, r, gs, |gs|);
  }

  // Where no grant has been taken the port has picked another VC.
  lemma PicksOther(T: Topo, f: Net, r: int, a: Arb, gs: seq<VC>, k: VC)
    requires Inv(T, f) && 0 <= r < |f.rs| && GrantsOk(T, r, f.rs[r], f.now, false, gs) && T.ValidVC(r, k)
    requires ValidArb(a, T.npc[r], T.nvc) && gs == Grants(a, Requests(T, r, f, false), T.npc[r])
    requires Requests(T, r, f, false).open(k) && 0 <= Requests(T, r, f, false).out(k) < T.npc[r]
    requires forall ip {:trigger Waiting(GrantUpto(T, f, r, gs, |gs|).rs[r].c, ip)} ::
               Waiting(GrantUpto(T, f, r, gs, |gs|).rs[r].c, ip) == INVALID_VC
    ensures V1Pick(a, Requests(T, r, f, false), k.pc) != Some(k.vc)
  {
    if V1Pick(a, Requests(T, r, f, false), k.pc) == Some(k.vc) {
      SomeGrant(a, Requests(T, r, f, false), T.npc[r], T.nvc, k);
      GrantMoves(T, f, r, gs);
    }
  }

  lemma NoneTaken(T: Topo, r: int, rs: RouterState, f: Net, u1: Net, u2: Net, v: Net, w1: Net, w2: Net)
    requires 0 <= r < |f.rs| == |u1.rs| == |u2.rs| == |v.rs| == |w1.rs| == |w2.rs|
    requires Rising(T, r, f, u1, u2, v, w1, w2) && Unmoved(T, r, f.rs[r].c, w2.rs[r].c)
    requires AtRest(rs) && AskedAll(T, r, rs.c, f.rs[r].c)
    ensures forall ip {:trigger Waiting(u1.rs[r].c, ip)} :: Waiting(u1.rs[r].c, ip) == INVALID_VC
  {
    NothingMoves(T, r, f, u1, u2, v, w1, w2);
    forall ip ensures Waiting(u1.rs[r].c, ip) == INVALID_VC {
      assert Waiting(f.rs[r].c, ip) == Waiting(rs.c, ip) == INVALID_VC;
    }
  }

  // ---------- how long a movable flit waits ----------

  // Its input port has picked another VC.
  lemma LosesPick(T: Topo, g: Routing, m: Moment, r: int, k: VC, ch: Choice)
    requires Idles(T, g, m, r, ch) && Movable(T, g, m.net, r, k)
    ensures var e := Requests(T, r, Front(T, m.net, r), false);
            e.asks(k) && V1Pick(m.arbs[r].regular, e, k.pc) != Some(k.vc)
  {
    LawfulGood(T, g, m.net);
    var f, u1, u2, v, w1, w2 := IdleStages(T, g, m, r, ch);
    RoutesOn(T, g, m, r, k, ch, f, u1, u2, v, w1, w2);
    AllocatesOn(T, g, m, r, k, ch, f, u1, u2, v, w1, w2);
    AsksAt(T, m.net, f, r, k);
    OpenAt(T, m.net, f, r, k);
    NoneTaken(T, r, m.net.rs[r], f, u1, u2, v, w1, w2);
    PicksOther(T, f, r, m.arbs[r].regular, ch.sa, k);
  }

  // And so the VC of the flit stands nearer to the front of the port's priority vector.
  lemma Nearer(T: Topo, g: Routing, m: Moment, r: int, k: VC, ch: Choice)
    requires Idles(T, g, m, r, ch) && Movable(T, g, m.net, r, k)
    requires Proper(m.arbs[r].regular, T.npc[r], T.nvc) && !m.arbs[r].regular.vp.PortRoundRobin?
    ensures Proper(ArbsAfter(T, m, r, ch).regular, T.npc[r], T.nvc)
    ensures ArbsAfter(T, m, r, ch).regular.vp == m.arbs[r].regular.vp
    ensures Order(ArbsAfter(T, m, r, ch).regular.v1[k.pc], k.vc) < Order(m.arbs[r].regular.v1[k.pc], k.vc)
  {
    LosesPick(T, g, m, r, k, ch);
    PickNearer(m.arbs[r].regular, Requests(T, r, Front(T, m.net, r), false), T.npc[r], T.nvc, k);
  }

  lemma PickNearer(a: Arb, e: Env, npc: nat, nvc: nat, k: VC)
    requires Proper(a, npc, nvc) && !a.vp.PortRoundRobin? && 0 <= k.pc < npc && 0 <= k.vc < nvc
    requires e.asks(k) && V1Pick(a, e, k.pc) != Some(k.vc)
    ensures Proper(Rotate(a, e), npc, nvc) && Order(Rotate(a, e).v1[k.pc], k.vc) < Order(a.v1[k.pc], k.vc)
  {
    RotateProper(a, e, npc, nvc);
    LosingHelps(a.vp, a.v1[k.pc], v => e.asks(VC(k.pc, v)), k.vc, nvc);
  }

  // In call ch nothing moves though the flit in front of input VC k can.
  ghost predicate StandsBy(T: Topo, g: Routing, r: int, k: VC, m: Moment, ch: Choice) {
    Idles(T, g, m, r, ch) && Movable(T, g, m.net, r, k)
  }

  // The arbiters of router r are at moment m' what call ch leaves of them at moment m.
  ghost predicate ArbsTurn(T: Topo, r: int, m: Moment, ch: Choice, m': Moment) {
    && Sized(T, m.net) && 0 <= r < |m.net.rs| == |m.arbs|
    && r < |m'.arbs| && m'.arbs[r] == ArbsAfter(T, m, r, ch)
  }

  // Successive calls of router r of this kind.
  ghost predicate AllStandBy(T: Topo, g: Routing, r: int, k: VC, ms: seq<Moment>, chs: seq<Choice>) {
    && |chs| == |ms|
    && (forall i {:trigger chs[i]} :: 0 <= i < |ms| ==> StandsBy(T, g, r, k, ms[i], chs[i]))
    && (forall i {:trigger chs[i]} :: 0 <= i < |ms| - 1 ==> ArbsTurn(T, r, ms[i], chs[i], ms[i + 1]))
  }

  // The vectors of the arbiter's first stage are those of its policy, and VC k stands at place n of its port's.
  ghost predicate StandsAt(T: Topo, r: int, k: VC, m: Moment, n: int) {
    && 0 <= r < |m.arbs| && 0 <= r < |T.npc| && 0 <= k.pc < T.npc[r] && 0 <= k.vc < T.nvc
    && Proper(m.arbs[r].regular, T.npc[r], T.nvc) && !m.arbs[r].regular.vp.PortRoundRobin?
    && Order(m.arbs[r].regular.v1[k.pc], k.vc) == n
  }

  lemma StandsNearer(T: Topo, g: Routing, r: int, k: VC, m: Moment, ch: Choice, m': Moment, n: int) returns (n': int)
    requires StandsBy(T, g, r, k, m, ch) && StandsAt(T, r, k, m, n) && ArbsTurn(T, r, m, ch, m')
    ensures n' < n && StandsAt(T, r, k, m', n')
  {
    Nearer(T, g, m, r, k, ch);
    n' := Order(m'.arbs[r].regular.v1[k.pc], k.vc);
  }

  lemma StandsLast(T: Topo, g: Routing, r: int, k: VC, m: Moment, ch: Choice, n: int)
    requires StandsBy(T, g, r, k, m, ch) && StandsAt(T, r, k, m, n)
    ensures n >= 1
  {
    Nearer(T, g, m, r, k, ch);
  }

  // From place n at one call to a place nearer to the front at the next.
  ghost predicate Below(p: (nat, int) -> bool, i: nat, n: int) { exists n' {:trigger p(i, n')} :: n' < n && p(i, n') }

  ghost predicate Sinks(p: (nat, int) -> bool, len: nat, i: nat) {
    forall n {:trigger p(i, n)} :: p(i, n) ==> n >= 1 && (i + 1 < len ==> Below(p, i + 1, n))
  }

  lemma {:induction false} Sunk(p: (nat, int) -> bool, len: nat, i: nat, n: int)
    requires i < len && p(i, n) && forall j {:trigger Sinks(p, len, j)} :: 0 <= j < len ==> Sinks(p, len, j)
    ensures len - i <= n
    decreases len - i
  {
    assert Sinks(p, len, i);
    if i + 1 < len {
      assert Below(p, i + 1, n);
      var n' :| n' < n && p(i + 1, n');
      Sunk(p, len, i + 1, n');
    }
  }

  lemma OneSinks(T: Topo, g: Routing, r: int, k: VC, ms: seq<Moment>, chs: seq<Choice>, i: nat, n: int)
    returns (n': int)
    requires AllStandBy(T, g, r, k, ms, chs) && i < |ms| && StandsAt(T, r, k, ms[i], n)
    ensures n >= 1 && (i + 1 < |ms| ==> n' < n && StandsAt(T, r, k, ms[i + 1], n'))
  {
    assert StandsBy(T, g, r, k, ms[i], chs[i]);
    StandsLast(T, g, r, k, ms[i], chs[i], n);
    n' := n;
    if i + 1 < |ms| { n' := StandsNearer(T, g, r, k, ms[i], chs[i], ms[i + 1], n); }
  }

  // There are fewer of them than the port has VCs, and no more than VCs stand in front of it.
  lemma MovesSoon(T: Topo, g: Routing, r: int, k: VC, ms: seq<Moment>, chs: seq<Choice>, n: int)
    requires AllStandBy(T, g, r, k, ms, chs) && ms != [] && StandsAt(T, r, k, ms[0], n)
    ensures |ms| <= n < T.nvc
  {
    var p := (i: nat, n: int) => i < |ms| && StandsAt(T, r, k, ms[i], n);
    forall i | 0 <= i < |ms| ensures Sinks(p, |ms|, i) {
      forall n | p(i, n) ensures n >= 1 && (i + 1 < |ms| ==> Below(p, i + 1, n)) {
        var n' := OneSinks(T, g, r, k, ms, chs, i, n);
        if i + 1 < |ms| { assert p(i + 1, n'); }
      }
    }
    Sunk(p, |ms|, 0, n);
    OrderAt(ms[0].arbs[r].regular.v1[k.pc], k.vc);
  }
}
