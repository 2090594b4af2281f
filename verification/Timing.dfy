// Runs that keep the program's time. The state machine lets a router route, admit and grant less than it
// could, and a network interface write when it likes, which is safe for what holds in all runs. Where a run is
// shown to exist it is one of these: nothing that could happen in a cycle is put off.

module Timing {
  import opened Wiring
  import opened Flits
  import opened Protocol
  import opened Invariant
  import opened StepProofs
  import opened Stages
  import opened StageProofs
  import opened Runs
  import opened Changes
  import opened Priorities
  import opened Arbiter
  import opened SwArb
  import Fairness

  // The priorities of a router's switch arbiter, for stageSA and for stageSSA.
  datatype Arbs = Arbs(regular: Arb, speculative: Arb)

  // process_router lets a router sleep only when it has no flits inside and no credits on their way.
  predicate Awake(rs: RouterState) { rs.inside != 0 || rs.deps != [] }

  // The network, what it was when the cycle began, the processes of network interfaces that have had their
  // turn in this cycle, each named by the injection VC it writes into, the packets that have been begun, and
  // the arbiters.
  datatype Moment = Moment(net: Net, start: Net, turned: set<(int, VC)>, used: set<nat>, arbs: seq<Arbs>)

  datatype Event =
    | Run(r: int, ch: Choice)                          // a router runs
    | Turn(r: int, k: VC)                              // a process writes its next flit, if there is room
    | Start(r: int, k: VC, pkt: nat, id: nat, n: nat)    // a process begins a packet of n flits and writes the first
    | Pass                                             // the cycle is over

  // The routing function gives packet p output port op at input VC k of router x, and any of its output VCs.
  ghost predicate MaySend(T: Topo, g: Routing, x: int, k: VC, p: nat, op: int) {
    g.out(x, k, p, op) &&
      forall ov {:trigger g.admits(x, k, p, op, ov)} :: 0 <= ov < T.nvc ==> g.admits(x, k, p, op, ov)
  }

  // ---------- the choices of a router ----------

  // The flit in front of input VC k has entered the router in this cycle.
  predicate EnteredNow(start: Net, r: int, c: Ctl, k: VC)
    requires 0 <= r < |start.rs|
  {
    |Got(c, k)| >= |Got(start.rs[r].c, k)| + |Q(start.rs[r].c, k)|
  }

  // stageRC routes every head flit in front of an idle input VC, but for those in their first cycle.
  ghost predicate ExactRoute(g: Routing, start: Net, r: int, c: Ctl, route: VC -> Option<int>)
    requires 0 <= r < |start.rs|
  {
    forall k {:trigger route(k)} :: In(c, k).st.I? && Q(c, k) != [] && Q(c, k)[0].IsHead() ==>
      if EnteredNow(start, r, c, k) then route(k).None?
      else route(k).Some? && g.out(r, k, Q(c, k)[0].pkt, route(k).value)
  }

  // The VC arbiter refuses no output VC that the routing function admits.
  ghost predicate ExactAdmit(T: Topo, g: Routing, r: int, c: Ctl, admit: (int, VC, int) -> bool) {
    forall k, op, ov {:trigger admit(ov, k, op)} ::
      0 <= ov < T.nvc && (k, op) in c.reqQ && Q(c, k) != [] ==>
        (admit(ov, k, op) <==> g.admits(r, k, Q(c, k)[0].pkt, op, ov))
  }

  // The requests the switch arbiter sees.
  function Requests(T: Topo, r: int, s: Net, spec: bool): Env
    requires 0 <= r < |s.rs|
  {
    RoundOf(ViewOf(T, r, s.rs[r], s.now), s.rs[r].c.sw, spec)
  }

  ghost predicate Timed(T: Topo, m: Moment) {
    && Sized(T, m.net) && |m.start.rs| == |m.net.rs| == |m.arbs|
    && forall r {:trigger m.arbs[r]} :: 0 <= r < |m.arbs| ==>
         ValidArb(m.arbs[r].regular, T.npc[r], T.nvc) && ValidArb(m.arbs[r].speculative, T.npc[r], T.nvc)
  }

  // The grants are those of the two-stage arbiter.
  ghost predicate ExactGrants(T: Topo, m: Moment, r: int, s1: Net, ch: Choice)
    requires Timed(T, m) && 0 <= r < |m.net.rs| && Sized(T, s1)
  {
    && ch.sa == Grants(m.arbs[r].regular, Requests(T, r, s1, false), T.npc[r])
    && (T.spec ==> ch.ssa == Grants(m.arbs[r].speculative, Requests(T, r, Middle(T, s1, r, ch), true), T.npc[r]))
  }

  ghost predicate ExactChoice(T: Topo, g: Routing, m: Moment, r: int, ch: Choice)
    requires Timed(T, m) && 0 <= r < |m.net.rs|
  {
    var s1 := Front(T, m.net, r);
    && RouteOk(T, r, ch.route) && ExactGrants(T, m, r, s1, ch)
    && ExactRoute(g, m.start, r, BeforeRC(T, s1, r, ch).rs[r].c, ch.route)
    && ExactAdmit(T, g, r, BeforeVA(T, s1, r, ch).rs[r].c, ch.admit)
  }

  // The priorities turn with the grants.
  function ArbsAfter(T: Topo, m: Moment, r: int, ch: Choice): Arbs
    requires Sized(T, m.net) && 0 <= r < |m.net.rs| == |m.arbs|
  {
    var s1 := Front(T, m.net, r);
    Arbs(Rotate(m.arbs[r].regular, Requests(T, r, s1, false)),
         if T.spec then Rotate(m.arbs[r].speculative, Requests(T, r, Middle(T, s1, r, ch), true))
         else m.arbs[r].speculative)
  }

  // The choices ch lead to state v after stageVA, to u after stageSSA, and to w at the end.
  ghost predicate Course(T: Topo, g: Routing, m: Moment, r: int, ch: Choice, v: Net, u: Net, w: Net)
    requires Timed(T, m) && 0 <= r < |m.net.rs|
  {
    var f := Front(T, m.net, r);
    var ch0 := ch.(ssa := []);
    && Sized(T, v) && Sized(T, u) && Sized(T, w) && w.now == v.now && RouteOk(T, r, ch.route)
    && v == Middle(T, f, r, ch0) && u == (if T.spec then GrantUpto(T, v, r, ch.ssa, |ch.ssa|) else v)
    && w == (if T.lookahead then u else RouteUpto(T, u, r, ch.route, T.npc[r]))
    && ch.sa == Grants(m.arbs[r].regular, Requests(T, r, f, false), T.npc[r])
    && (T.spec ==> ch.ssa == Grants(m.arbs[r].speculative, Requests(T, r, v, true), T.npc[r]))
    && ExactAdmit(T, g, r, BeforeVA(T, f, r, ch0).rs[r].c, ch.admit)
    && ExactRoute(g, m.start, r, (if T.lookahead then BeforeRC(T, f, r, ch0) else u).rs[r].c, ch.route)
  }

  lemma CourseRuns(T: Topo, g: Routing, m: Moment, r: int, ch: Choice, v: Net, u: Net, w: Net)
    requires Timed(T, m) && 0 <= r < |m.net.rs| && Course(T, g, m, r, ch, v, u, w)
    ensures ExactChoice(T, g, m, r, ch) && RouterSim(T, m.net, r, ch) == Upd(w, r, w.rs[r].(ran := w.now))
  {
    var f := Front(T, m.net, r);
    assert Middle(T, f, r, ch) == v;
  }

  // ---------- the runs ----------

  // A process may write into the port: it has none of its own packets begun there.
  ghost predicate MayStart(T: Topo, g: Routing, m: Moment, r: int, k: VC, pkt: nat)
    requires Sized(T, m.net)
  {
    && T.ValidVC(r, k) && T.IsEject(r, k.pc) && Pending(m.net.rs[r], k) == [] && !IsFull(T, m.net.rs[r].c, k)
    && (r, k) !in m.turned && pkt !in m.used && g.may(r, k, pkt)
    && (g.single ==> NoneBegun(m.net.rs[r], k.pc) && forall k' :: (r, k') in m.turned ==> k'.pc != k.pc)
  }

  ghost predicate Possible(T: Topo, g: Routing, m: Moment, e: Event)
    requires Timed(T, m)
  {
    match e
    case Run(r, ch) =>
      0 <= r < |m.net.rs| && Awake(m.net.rs[r]) && m.net.rs[r].ran < m.net.now && ExactChoice(T, g, m, r, ch)
    case Turn(r, k) =>
      T.ValidVC(r, k) && T.IsEject(r, k.pc) && Pending(m.net.rs[r], k) != [] && (r, k) !in m.turned
    case Start(r, k, pkt, id, n) => n >= 1 && MayStart(T, g, m, r, k, pkt)
    case Pass =>
      && (forall r {:trigger m.net.rs[r]} :: 0 <= r < |m.net.rs| && Awake(m.net.rs[r]) ==> m.net.rs[r].ran == m.net.now)
      && forall r, k {:trigger (r, k) in m.turned} :: T.ValidVC(r, k) && Pending(m.net.rs[r], k) != [] ==>
           (r, k) in m.turned
  }

  ghost function AfterEvent(T: Topo, m: Moment, e: Event): Moment
    requires Timed(T, m)
  {
    match e
    case Run(r, ch) =>
      if !(0 <= r < |m.net.rs|) then m
      else m.(net := RouterSim(T, m.net, r, ch), arbs := m.arbs[r := ArbsAfter(T, m, r, ch)])
    case Turn(r, k) => m.(net := Attempt(T, m.net, r, k), turned := m.turned + {(r, k)})
    case Start(r, k, pkt, id, n) =>
      if !(0 <= r < |m.net.rs|) then m
      else m.(net := Attempt(T, Upd(m.net, r, Reserve(m.net.rs[r], k, pkt, id, n)), r, k),
              turned := m.turned + {(r, k)}, used := m.used + {pkt})
    case Pass => var s := m.net.(now := m.net.now + 1); m.(net := s, start := s, turned := {})
  }

  // segmentPacket writes a flit unless the buffer is full.
  function Attempt(T: Topo, s: Net, r: int, k: VC): Net {
    if 0 <= r < |s.rs| && Pending(s.rs[r], k) != [] && !IsFull(T, s.rs[r].c, k)
    then Upd(s, r, Inject(s.rs[r], k))
    else s
  }

  // Each router with an arbiter of its own, both stages of the given policies.
  function FirstMoment(T: Topo, vp: Policy, pp: Policy): Moment {
    Moment(Init(T), Init(T), {}, {},
           seq(|T.npc|, (r: nat) requires r < |T.npc| =>
             Arbs(Fairness.FirstArb(vp, pp, T.npc[r], T.nvc), Fairness.FirstArb(vp, pp, T.npc[r], T.nvc))))
  }

  ghost predicate StepsTo(T: Topo, g: Routing, u: Moment, e: Event, m: Moment) {
    Timed(T, u) && Possible(T, g, u, e) && m == AfterEvent(T, u, e)
  }

  ghost predicate TimedRun(T: Topo, g: Routing, m0: Moment, es: seq<Event>, m: Moment)
    decreases |es|
  {
    if es == [] then m == m0
    else
      var n := |es| - 1;
      exists u :: TimedRun(T, g, m0, es[..n], u) && StepsTo(T, g, u, es[n], m)
  }

  // The program comes to this moment, for some arbiter policies.
  ghost predicate Comes(T: Topo, g: Routing, vp: Policy, pp: Policy, m: Moment) {
    T.Valid() && exists es :: TimedRun(T, g, FirstMoment(T, vp, pp), es, m)
  }

  lemma FirstTimed(T: Topo, vp: Policy, pp: Policy)
    requires |T.npc| == |T.nint|
    ensures Timed(T, FirstMoment(T, vp, pp))
  {
    forall r | 0 <= r < |T.npc| ensures ValidArb(Fairness.FirstArb(vp, pp, T.npc[r], T.nvc), T.npc[r], T.nvc) {
      IdentityPerm(T.nvc);
      IdentityPerm(T.npc[r]);
    }
  }

  lemma IdentityPerm(n: nat)
    ensures Perm(Fairness.Identity(n), n)
  {
    var l := Fairness.Identity(n);
    forall x | 0 <= x < n ensures x in l { assert l[x] == x; }
  }

  lemma AfterTimed(T: Topo, g: Routing, m: Moment, e: Event)
    requires Timed(T, m) && Possible(T, g, m, e) && Sized(T, AfterEvent(T, m, e).net)
    ensures Timed(T, AfterEvent(T, m, e))
  {
    match e
    case Run(r, ch) =>
      var s1 := Front(T, m.net, r);
      RotateValid(m.arbs[r].regular, Requests(T, r, s1, false), T.npc[r], T.nvc);
      RotateValid(m.arbs[r].speculative, Requests(T, r, Middle(T, s1, r, ch), true), T.npc[r], T.nvc);
    case _ =>
  }

  // ---------- they are runs of the state machine ----------

  lemma ExactIsOk(T: Topo, g: Routing, m: Moment, r: int, ch: Choice)
    requires Timed(T, m) && Good(T, m.net) && 0 <= r < |m.net.rs| && m.net.rs[r].ran < m.net.now
    requires ExactChoice(T, g, m, r, ch)
    ensures ChoiceOk(T, m.net, r, ch) && RightChoice(T, g, m.net, r, ch)
  {
    var s := m.net;
    assert Rested(T, r, s.rs[r], s.now);
    FrontInv(T, s, r);
    var s1 := Front(T, s, r);
    assert Control(T, r, s1.rs[r].c);
    GrantsServe(T, r, s1.rs[r], s1.now, false, m.arbs[r].regular);
    if T.spec {
      forall op | op in s1.rs[r].c.xown ensures XClk(s1.rs[r], op) <= s.now { assert XClk(s1.rs[r], op) < s.now; }
      MiddleInv(T, s1, r, ch);
      var s2 := Middle(T, s1, r, ch);
      assert Control(T, r, s2.rs[r].c);
      GrantsServe(T, r, s2.rs[r], s2.now, true, m.arbs[r].speculative);
    }
  }

  lemma RunReach(T: Topo, g: Routing, s: Net, r: int, ch: Choice)
    requires LawfulReachable(T, g, s) && Sized(T, s) && 0 <= r < |s.rs| && s.rs[r].ran < s.now && ChoiceOk(T, s, r, ch)
    requires RightChoice(T, g, s, r, ch)
    ensures LawfulReachable(T, g, RouterSim(T, s, r, ch))
  {
    LawfulStep(T, g, s, Sim(r, ch));
  }

  lemma BeginReach(T: Topo, g: Routing, s: Net, r: int, k: VC, pkt: nat, id: nat, n: nat, s1: Net)
    requires LawfulReachable(T, g, s) && Sized(T, s) && T.ValidVC(r, k) && T.IsEject(r, k.pc) && 0 <= r < |s.rs|
    requires Pending(s.rs[r], k) == [] && !IsFull(T, s.rs[r].c, k) && s1 == Upd(s, r, Reserve(s.rs[r], k, pkt, id, n))
    requires g.may(r, k, pkt) && (g.single ==> NoneBegun(s.rs[r], k.pc))
    ensures LawfulReachable(T, g, s1)
  {
    LawfulStep(T, g, s, Begin(r, k, pkt, id, n));
  }

  lemma WriteReach(T: Topo, g: Routing, s: Net, r: int, k: VC, s1: Net)
    requires LawfulReachable(T, g, s) && Sized(T, s) && T.ValidVC(r, k) && T.IsEject(r, k.pc) && 0 <= r < |s.rs|
    requires Pending(s.rs[r], k) != [] && !IsFull(T, s.rs[r].c, k) && s1 == Upd(s, r, Inject(s.rs[r], k))
    ensures LawfulReachable(T, g, s1)
  {
    LawfulStep(T, g, s, Write(r, k));
  }

  lemma TickReach(T: Topo, g: Routing, s: Net, s1: Net)
    requires LawfulReachable(T, g, s) && Sized(T, s) && Enabled(T, s, Tick) && s1 == Do(T, s, Tick)
    ensures LawfulReachable(T, g, s1)
  {
    LawfulStep(T, g, s, Tick);
  }

  // A packet is begun: its VC is reserved, then its first flit is written.
  lemma Reserved(T: Topo, g: Routing, m: Moment, r: int, k: VC, pkt: nat, id: nat, n: nat) returns (x: RouterState)
    requires Timed(T, m) && n >= 1 && MayStart(T, g, m, r, k, pkt)
    ensures x == Reserve(m.net.rs[r], k, pkt, id, n) && Pending(x, k) != [] && !IsFull(T, x.c, k)
    ensures AfterEvent(T, m, Start(r, k, pkt, id, n)).net == Upd(Upd(m.net, r, x), r, Inject(x, k))
  {
    x := Reserve(m.net.rs[r], k, pkt, id, n);
    assert Pending(x, k) == Cut(pkt, id, n);
    assert x.c == m.net.rs[r].c;
  }

  lemma StartReach(T: Topo, g: Routing, m: Moment, r: int, k: VC, pkt: nat, id: nat, n: nat)
    requires Timed(T, m) && LawfulReachable(T, g, m.net) && n >= 1 && MayStart(T, g, m, r, k, pkt)
    ensures LawfulReachable(T, g, AfterEvent(T, m, Start(r, k, pkt, id, n)).net)
  {
    var x := Reserved(T, g, m, r, k, pkt, id, n);
    var s1 := Upd(m.net, r, x);
    BeginReach(T, g, m.net, r, k, pkt, id, n, s1);
    WriteReach(T, g, s1, r, k, Upd(s1, r, Inject(x, k)));
  }

  // The state machine takes one step for each event, or two to begin a packet, or none.
  lemma SimReach(T: Topo, g: Routing, m: Moment, r: int, ch: Choice)
    requires Timed(T, m) && LawfulReachable(T, g, m.net) && Good(T, m.net) && Possible(T, g, m, Run(r, ch))
    ensures LawfulReachable(T, g, AfterEvent(T, m, Run(r, ch)).net)
  {
    ExactIsOk(T, g, m, r, ch);
    RunReach(T, g, m.net, r, ch);
  }

  lemma TurnReach(T: Topo, g: Routing, m: Moment, r: int, k: VC)
    requires Timed(T, m) && LawfulReachable(T, g, m.net) && Good(T, m.net) && Possible(T, g, m, Turn(r, k))
    ensures LawfulReachable(T, g, AfterEvent(T, m, Turn(r, k)).net)
  {
    if !IsFull(T, m.net.rs[r].c, k) { WriteReach(T, g, m.net, r, k, Upd(m.net, r, Inject(m.net.rs[r], k))); }
  }

  lemma PassReach(T: Topo, g: Routing, m: Moment)
    requires Timed(T, m) && LawfulReachable(T, g, m.net) && Good(T, m.net) && Possible(T, g, m, Pass)
    ensures LawfulReachable(T, g, AfterEvent(T, m, Pass).net)
  {
    TickReach(T, g, m.net, m.net.(now := m.net.now + 1));
  }

  lemma EventReach(T: Topo, g: Routing, m: Moment, e: Event)
    requires Timed(T, m) && LawfulReachable(T, g, m.net) && Good(T, m.net) && Possible(T, g, m, e)
    ensures LawfulReachable(T, g, AfterEvent(T, m, e).net)
  {
    match e
    case Run(r, ch) => SimReach(T, g, m, r, ch);
    case Turn(r, k) => TurnReach(T, g, m, r, k);
    case Start(r, k, pkt, id, n) => StartReach(T, g, m, r, k, pkt, id, n);
    case Pass => PassReach(T, g, m);
  }

  lemma LawfulGood(T: Topo, g: Routing, s: Net)
    requires LawfulReachable(T, g, s)
    ensures Good(T, s) && Sized(T, s)
  {
    LawfulIsReachable(T, g, s);
    ReachableGood(T, s);
  }

  lemma EventLawful(T: Topo, g: Routing, m: Moment, e: Event)
    requires Timed(T, m) && LawfulReachable(T, g, m.net) && Possible(T, g, m, e)
    ensures LawfulReachable(T, g, AfterEvent(T, m, e).net) && Timed(T, AfterEvent(T, m, e))
  {
    LawfulGood(T, g, m.net);
    EventReach(T, g, m, e);
    LawfulGood(T, g, AfterEvent(T, m, e).net);
    AfterTimed(T, g, m, e);
  }

  lemma {:induction false} RunLawful(T: Topo, g: Routing, vp: Policy, pp: Policy, es: seq<Event>, m: Moment)
    requires T.Valid() && TimedRun(T, g, FirstMoment(T, vp, pp), es, m)
    ensures LawfulReachable(T, g, m.net) && Timed(T, m)
    decreases |es|
  {
    if es == [] {
      FirstTimed(T, vp, pp);
      assert LawfulRun(T, g, Init(T), [], Init(T));
    } else {
      var n := |es| - 1;
      var u :| TimedRun(T, g, FirstMoment(T, vp, pp), es[..n], u) && StepsTo(T, g, u, es[n], m);
      RunLawful(T, g, vp, pp, es[..n], u);
      EventLawful(T, g, u, es[n]);
    }
  }

  // So whatever holds in every lawful run holds at every moment.
  lemma ComesLawful(T: Topo, g: Routing, vp: Policy, pp: Policy, m: Moment)
    requires Comes(T, g, vp, pp, m)
    ensures LawfulReachable(T, g, m.net) && Timed(T, m)
  {
    var es :| TimedRun(T, g, FirstMoment(T, vp, pp), es, m);
    RunLawful(T, g, vp, pp, es, m);
  }

  lemma RunNext(T: Topo, g: Routing, m0: Moment, es: seq<Event>, u: Moment, e: Event, m: Moment)
    requires TimedRun(T, g, m0, es, u) && StepsTo(T, g, u, e, m)
    ensures TimedRun(T, g, m0, es + [e], m)
  {
    assert (es + [e])[..|es|] == es;
  }

  lemma ComesNext(T: Topo, g: Routing, vp: Policy, pp: Policy, m: Moment, e: Event)
    requires Comes(T, g, vp, pp, m) && Timed(T, m) && Possible(T, g, m, e)
    ensures Comes(T, g, vp, pp, AfterEvent(T, m, e))
  {
    var es :| TimedRun(T, g, FirstMoment(T, vp, pp), es, m);
    RunNext(T, g, FirstMoment(T, vp, pp), es, m, e, AfterEvent(T, m, e));
  }
}
