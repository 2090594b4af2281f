// What the program asserts in each stage, stated on the state machine, and why the invariant makes it true.

module Assertions {
  import opened Wiring
  import opened Flits
  import opened Protocol
  import opened Invariant
  import opened ControlProofs
  import opened CreditProofs
  import opened LinkProofs
  import opened StepProofs
  import opened Stages
  import opened StageProofs
  import opened Arbiter
  import opened VCArbs
  import opened SwArb
  import opened VAStage
  import opened Runs

  // ---------- incCredit ----------

  // incCredit on one router, and its assertion in every round.
  function Incs(T: Topo, rs: RouterState, now: int): RouterState
    decreases |rs.deps|
  {
    if rs.deps != [] && rs.deps[0].clk <= now then Incs(T, Inc(T, rs), now) else rs
  }

  predicate IncsFit(T: Topo, rs: RouterState, now: int)
    decreases |rs.deps|
  {
    rs.deps != [] && rs.deps[0].clk <= now ==>
      && (!T.damq ==> Cr(T, Inc(T, rs).cred, VC(rs.deps[0].outPc, rs.deps[0].outVc)).num <= T.depth)
      && IncsFit(T, Inc(T, rs), now)
  }

  lemma {:induction false} IncAllFits(T: Topo, s: Net, r: int)
    requires Inv(T, s) && 0 <= r < |s.rs|
    ensures IncsFit(T, s.rs[r], s.now)
    ensures IncAll(T, s, r) == Upd(s, r, Incs(T, s.rs[r], s.now))
    decreases |s.rs[r].deps|
  {
    if s.rs[r].deps != [] && s.rs[r].deps[0].clk <= s.now {
      var s' := Upd(s, r, Inc(T, s.rs[r]));
      var o := VC(s.rs[r].deps[0].outPc, s.rs[r].deps[0].outVc);
      IncInv(T, s, r);
      assert DepsOk(T, r, s.rs[r]);
      T.WiredAt(Port(r, o.pc), T.Down(Port(r, o.pc)).value);
      CreditBounds(T, s', r, o);
      IncAllFits(T, s', r);
    }
  }

  // ---------- stageLT ----------

  // What stageLT asserts before it moves a flit: the wire leads to a router whose buffer has room for it.
  ghost predicate HasRoom(T: Topo, s: Net, r: int, op: int)
    requires 0 <= r < |s.rs| && Link(s.rs[r].link, op) != []
  {
    T.Down(Port(r, op)).Some? &&
    (var p := T.Down(Port(r, op)).value;
     && 0 <= p.router < |s.rs|
     && !IsFull(T, s.rs[p.router].c, VC(p.pc, Link(s.rs[r].link, op)[0].vc)))
  }

  ghost predicate LTReady(T: Topo, s: Net, r: int, op: int, now: int) {
    0 <= r < |s.rs| && s.now == now && (Link(s.rs[r].link, op) != [] ==> HasRoom(T, s, r, op))
  }

  // The assertions of stageLT hold in each of its first n rounds.
  ghost predicate LTSafe(T: Topo, s: Net, r: int, n: nat)
    requires Sized(T, s) && 0 <= r < |s.rs|
  {
    forall op: nat {:trigger LTUpto(T, s, r, op)} :: op < n ==> LTReady(T, LTUpto(T, s, r, op), r, op, s.now)
  }

  lemma LTFinds(T: Topo, s0: Net, r: int, op: nat)
    requires Inv(T, s0) && 0 <= r < |s0.rs| && LTDone(T, s0, s0, r, 0) && op < T.npc[r]
    ensures LTReady(T, LTUpto(T, s0, r, op), r, op, s0.now)
  {
    LTUptoInv(T, s0, r, op);
    var s := LTUpto(T, s0, r, op);
    if Link(s.rs[r].link, op) != [] {
      assert LinkOk(T, r, s.rs[r], s.now, op);
      RoomDownstream(T, s, r, op, T.Down(Port(r, op)).value);
    }
  }

  // ---------- stageST ----------

  lemma STNext(T: Topo, s: Net, r: int, ip: nat)
    requires Sized(T, s) && 0 <= r < |s.rs| && STReady(T, STUpto(T, s, r, ip), r, ip, s.now)
    ensures var cur := STUpto(T, s, r, ip);
            STUpto(T, s, r, ip + 1) == if Waiting(cur.rs[r].c, ip) == INVALID_VC then cur else STPort(T, cur, r, ip)
  {}

  // What stageST asserts of the flit the crossbar waits for on input port ip.
  ghost predicate CrossOk(T: Topo, r: int, rs: RouterState, ip: int) {
    var k := VC(ip, Waiting(rs.c, ip));
    var m := In(rs.c, k);
    && k.vc != INVALID_VC && Q(rs.c, k) != [] && m.st.S?
    && (T.IsEject(r, m.outPc) ||
        (T.Down(Port(r, m.outPc)).Some? && |Link(rs.link, m.outPc)| < T.Lat(Port(r, m.outPc))))
    && m.outPc in rs.c.taken
    && (Q(rs.c, k)[0].IsTail() ==> VC(m.outPc, m.outVc) in rs.c.busy)
  }

  ghost predicate STReady(T: Topo, s: Net, r: int, ip: int, now: int) {
    0 <= r < |s.rs| && s.now == now && (Waiting(s.rs[r].c, ip) != INVALID_VC ==> CrossOk(T, r, s.rs[r], ip))
  }

  // The assertions of stageST hold in each of its first n rounds.
  ghost predicate STSafe(T: Topo, s: Net, r: int, n: nat)
    requires Sized(T, s) && 0 <= r < |s.rs|
  {
    forall ip: nat {:trigger STUpto(T, s, r, ip)} :: ip < n ==> STReady(T, STUpto(T, s, r, ip), r, ip, s.now)
  }

  lemma STFinds(T: Topo, s0: Net, r: int, ip: nat)
    requires 0 <= r < |s0.rs| && Sized(T, s0) && STDone(T, s0, s0, r, 0) && ip < T.npc[r]
    ensures STReady(T, STUpto(T, s0, r, ip), r, ip, s0.now)
  {
    STUptoInv(T, s0, r, ip);
    var s := STUpto(T, s0, r, ip);
    if Waiting(s.rs[r].c, ip) != INVALID_VC {
      var o, f := CrossbarFlit(T, s, r, ip);
      assert LastLT(s.rs[r], o.pc) == s.now && XClk(s.rs[r], o.pc) < s.now;
      if !T.IsEject(r, o.pc) {
        assert LinkOk(T, r, s.rs[r], s.now, o.pc);
        WireHasRoom(T, r, s.rs[r], s.now, o.pc);
      }
    }
  }

  // ---------- stageSA: requests ----------

  lemma AskNext(s: Net, r: int, ks: seq<VC>, n: nat)
    requires 0 <= r < |s.rs| && n < |ks|
    ensures var c := AskUpto(s, r, ks, n).rs[r].c;
            AskUpto(s, r, ks, n + 1).rs[r].c == (if Asks(c, ks[n]) then Request(c, ks[n], s.now) else c)
  {}

  lemma {:induction false} AskKeeps(s: Net, r: int, ks: seq<VC>, n: nat)
    requires 0 <= r < |s.rs| && n <= |ks|
    ensures var x := AskUpto(s, r, ks, n).rs[r]; x == s.rs[r].(c := x.c)
  {
    if n > 0 { AskKeeps(s, r, ks, n - 1); }
  }

  // What AskForSwitch needs of one input VC: a request that is not there yet, for a port that exists.
  ghost predicate AskReady(T: Topo, r: int, c: Ctl, k: VC)
    requires T.ValidRouter(r)
  {
    Asks(c, k) ==> k !in c.sw && 0 <= In(c, k).outPc < T.npc[r] && k in Grid(T.npc[r], T.nvc)
  }

  ghost predicate AskSafe(T: Topo, s: Net, r: int)
    requires Sized(T, s) && 0 <= r < |s.rs|
  {
    var ks := FreeKeys(s.rs[r].c.sw, T.npc[r], T.nvc);
    forall n: nat {:trigger AskUpto(s, r, ks, n)} :: n < |ks| ==> AskReady(T, r, AskUpto(s, r, ks, n).rs[r].c, ks[n])
  }

  lemma FreeRowDistinct(sw: map<VC, SwReq>, pc: int, n: nat)
    ensures forall i, j :: 0 <= i < j < |FreeRow(sw, pc, n)| ==> FreeRow(sw, pc, n)[i] != FreeRow(sw, pc, n)[j]
    ensures forall i :: 0 <= i < |FreeRow(sw, pc, n)| ==> FreeRow(sw, pc, n)[i] !in sw
  {
    if n > 0 {
      FreeRowDistinct(sw, pc, n - 1);
      FreeRowValid(sw, pc, n - 1);
    }
  }

  lemma FreeKeysDistinct(sw: map<VC, SwReq>, n: nat, nvc: nat)
    ensures forall i, j :: 0 <= i < j < |FreeKeys(sw, n, nvc)| ==> FreeKeys(sw, n, nvc)[i] != FreeKeys(sw, n, nvc)[j]
    ensures forall i :: 0 <= i < |FreeKeys(sw, n, nvc)| ==> FreeKeys(sw, n, nvc)[i] !in sw
  {
    if n > 0 {
      FreeKeysDistinct(sw, n - 1, nvc);
      FreeKeysValid(sw, n - 1, nvc);
      FreeRowDistinct(sw, n - 1, nvc);
      FreeRowValid(sw, n - 1, nvc);
    }
  }

  lemma {:induction false} AskUptoSw(s: Net, r: int, ks: seq<VC>, n: nat)
    requires 0 <= r < |s.rs| && n <= |ks|
    ensures forall k :: k in AskUpto(s, r, ks, n).rs[r].c.sw ==> k in s.rs[r].c.sw || k in ks[..n]
  {
    if n > 0 {
      AskUptoSw(s, r, ks, n - 1);
      assert ks[..n] == ks[..n - 1] + [ks[n - 1]];
    }
  }

  lemma AskFinds(T: Topo, s: Net, r: int)
    requires Inv(T, s) && 0 <= r < |s.rs| && Idle(T, r, s.rs[r].c)
    ensures AskSafe(T, s, r)
  {
    var ks := FreeKeys(s.rs[r].c.sw, T.npc[r], T.nvc);
    FreeKeysValid(s.rs[r].c.sw, T.npc[r], T.nvc);
    FreeKeysDistinct(s.rs[r].c.sw, T.npc[r], T.nvc);
    InGrid(T.npc[r], T.nvc);
    forall n: nat | n < |ks| ensures AskReady(T, r, AskUpto(s, r, ks, n).rs[r].c, ks[n]) {
      AskUptoInv(T, s, r, ks, n);
      AskUptoSw(s, r, ks, n);
      var c := AskUpto(s, r, ks, n).rs[r].c;
      assert Control(T, r, c);
      assert InOk(T, r, c, ks[n]);
    }
  }

  // ---------- stageSA and stageSSA: grants ----------

  // What the stages assert of a grant: it is for a flit that is there, and its crossbar ports are free.
  ghost predicate PortReady(c: Ctl, k: VC, o: VC) {
    && k in c.sw && Q(c, k) != [] && o == VC(c.sw[k].outPc, c.sw[k].outVc)
    && Waiting(c, k.pc) == INVALID_VC && o.pc !in c.taken
    && (Q(c, k)[0].IsHead() ==> In(c, k).st.V?)
  }

  // The states between the grants of one round, in each of which the next grant is in order.
  ghost predicate GrantChain(T: Topo, r: int, now: int, gs: seq<VC>, outs: seq<VC>, st: seq<RouterState>) {
    && |outs| == |gs| && |st| == |gs| + 1
    && (forall n {:trigger gs[n]} :: 0 <= n < |gs| ==>
          && PortReady(st[n].c, gs[n], outs[n]) && (T.IsEject(r, outs[n].pc) || HasCredit(T, st[n].cred, outs[n]))
          && st[n + 1] == Take(T, r, st[n], gs[n], now))
  }

  lemma GrantLink(T: Topo, r: int, now: int, gs: seq<VC>, outs: seq<VC>, st: seq<RouterState>, n: nat)
    requires GrantChain(T, r, now, gs, outs, st) && n < |gs|
    ensures PortReady(st[n].c, gs[n], outs[n]) && (T.IsEject(r, outs[n].pc) || HasCredit(T, st[n].cred, outs[n]))
    ensures st[n + 1] == Take(T, r, st[n], gs[n], now) && st[n + 1].c.q == st[n].c.q
    ensures st[n + 1].cred == if T.IsEject(r, outs[n].pc) then st[n].cred else DecCredit(T, st[n].cred, outs[n])
  {
    assert gs[n] in st[n].c.sw;
  }

  ghost function GrantStates(T: Topo, s: Net, r: int, gs: seq<VC>): (st: seq<RouterState>)
    requires Sized(T, s) && 0 <= r < |s.rs|
    ensures |st| == |gs| + 1
    ensures forall n {:trigger st[n]} :: 0 <= n <= |gs| ==> st[n] == GrantUpto(T, s, r, gs, n).rs[r]
  {
    seq(|gs| + 1, (n: nat) requires n <= |gs| => GrantUpto(T, s, r, gs, n).rs[r])
  }

  // A round of grants changes nothing but crossbar, credits, input modules and requests.
  ghost predicate GrantKeeps(rs: RouterState, x: RouterState, gs: seq<VC>, n: nat)
    requires n <= |gs|
  {
    && x.c.sw == Without(rs.c.sw, gs, n)
    && x.c.q == rs.c.q && x.c.busy == rs.c.busy && x.c.reqQ == rs.c.reqQ
    && x.c.owner == rs.c.owner && x.c.got == rs.c.got && x.c.sent == rs.c.sent
    && x.link == rs.link && x.deps == rs.deps && x.inside == rs.inside && x.pending == rs.pending
    && x.lt == rs.lt && x.ran == rs.ran
  }

  lemma {:induction false} GrantUptoKeeps(T: Topo, now: int, r: int, gs: seq<VC>, outs: seq<VC>, st: seq<RouterState>,
          n: nat)
    requires GrantChain(T, r, now, gs, outs, st) && n <= |gs|
    ensures GrantKeeps(st[0], st[n], gs, n)
  {
    if n > 0 {
      GrantUptoKeeps(T, now, r, gs, outs, st, n - 1);
      assert gs[n - 1] in st[n - 1].c.sw;
    }
  }

  lemma GrantFind(T: Topo, s: Net, r: int, spec: bool, gs: seq<VC>, outs: seq<VC>, n: nat)
    requires Inv(T, s) && 0 <= r < |s.rs| && GrantsOk(T, r, s.rs[r], s.now, spec, gs)
    requires OutsOf(s.rs[r].c.sw, gs, outs) && n < |gs|
    ensures var rs := GrantUpto(T, s, r, gs, n).rs[r];
            && PortReady(rs.c, gs[n], outs[n]) && (T.IsEject(r, outs[n].pc) || HasCredit(T, rs.cred, outs[n]))
            && GrantUpto(T, s, r, gs, n + 1).rs[r] == Take(T, r, rs, gs[n], s.now)
            && rs.c.q == s.rs[r].c.q
  {
    GrantUptoInv(T, s, r, spec, gs, n);
    var s1 := GrantUpto(T, s, r, gs, n);
    var c := s1.rs[r].c;
    assert GrantOk(T, r, s1.rs[r], gs[n]);
    assert Control(T, r, c);
    assert InOk(T, r, c, gs[n]) && Wormhole(Here(c, gs[n]));
    GrantSelf(T, r, c, gs[n]);
  }

  lemma GrantsFind(T: Topo, s: Net, r: int, spec: bool, gs: seq<VC>, outs: seq<VC>)
    requires Inv(T, s) && 0 <= r < |s.rs| && GrantsOk(T, r, s.rs[r], s.now, spec, gs)
    requires OutsOf(s.rs[r].c.sw, gs, outs)
    ensures var st := GrantStates(T, s, r, gs);
            && GrantChain(T, r, s.now, gs, outs, st) && st[0] == s.rs[r]
            && GrantKeeps(s.rs[r], st[|gs|], gs, |gs|)
            && (spec ==> forall n {:trigger gs[n]} :: 0 <= n < |gs| ==>
                Q(st[n].c, gs[n]) != [] && Q(st[n].c, gs[n])[0].IsHead())
  {
    var st := GrantStates(T, s, r, gs);
    forall n | 0 <= n < |gs|
      ensures PortReady(st[n].c, gs[n], outs[n]) && (T.IsEject(r, outs[n].pc) || HasCredit(T, st[n].cred, outs[n]))
      ensures st[n + 1] == Take(T, r, st[n], gs[n], s.now)
      ensures spec ==> Q(st[n].c, gs[n])[0].IsHead() {
      GrantFind(T, s, r, spec, gs, outs, n);
    }
    GrantUptoKeeps(T, s.now, r, gs, outs, st, |gs|);
  }

  // Take, field by field.
  lemma TakeIs(T: Topo, r: int, rs: RouterState, k: VC, o: VC, now: int)
    requires k in rs.c.sw && Q(rs.c, k) != [] && o == VC(rs.c.sw[k].outPc, rs.c.sw[k].outVc)
    ensures var x := Take(T, r, rs, k, now);
            && x.c.waiting == rs.c.waiting[k.pc := k.vc] && x.c.taken == rs.c.taken + {o.pc}
            && x.c.inm == (if Q(rs.c, k)[0].IsHead() then rs.c.inm[k := In(rs.c, k).(st := S)] else rs.c.inm)
            && x.c.xown == rs.c.xown[o.pc := k.pc] && x.xclk == rs.xclk[o.pc := now]
  {}

  // The arbiter's grants can be taken one after the other.
  lemma SwitchFinds(T: Topo, s: Net, r: int, spec: bool, a: Arb, gs: seq<VC>, outs: seq<VC>)
    requires Inv(T, s) && 0 <= r < |s.rs| && ValidArb(a, T.npc[r], T.nvc)
    requires gs == Grants(a, RoundOf(ViewOf(T, r, s.rs[r], s.now), s.rs[r].c.sw, spec), T.npc[r])
    requires OutsOf(s.rs[r].c.sw, gs, outs)
    ensures GrantsOk(T, r, s.rs[r], s.now, spec, gs)
    ensures var st := GrantStates(T, s, r, gs);
            && GrantChain(T, r, s.now, gs, outs, st) && st[0] == s.rs[r] && GrantKeeps(s.rs[r], st[|gs|], gs, |gs|)
            && (spec ==> forall n {:trigger gs[n]} :: 0 <= n < |gs| ==>
                Q(st[n].c, gs[n]) != [] && Q(st[n].c, gs[n])[0].IsHead())
  {
    assert Control(T, r, s.rs[r].c);
    GrantsServe(T, r, s.rs[r], s.now, spec, a);
    GrantsFind(T, s, r, spec, gs, outs);
  }

  // ---------- stageVA ----------

  // What the VC arbiter asserts of its i-th request.
  ghost predicate VAReady(T: Topo, r: int, c: Ctl, i: nat)
    requires T.ValidRouter(r)
  {
    i < |c.reqQ| ==>
      var k := c.reqQ[i].0;
      && In(c, k) == InMod(R, c.reqQ[i].1, INVALID_VC) && Q(c, k) != []
      && k !in c.sw && k in Grid(T.npc[r], T.nvc) && 0 <= c.reqQ[i].1 < T.npc[r]
  }

  ghost predicate VASafe(T: Topo, r: int, c: Ctl)
    requires T.ValidRouter(r)
  {
    (forall i: nat {:trigger VAReady(T, r, c, i)} :: VAReady(T, r, c, i)) && AllApart(c.reqQ)
  }

  lemma VAFinds(T: Topo, r: int, c: Ctl)
    requires T.ValidRouter(r) && Control(T, r, c)
    ensures VASafe(T, r, c)
  {
    InGrid(T.npc[r], T.nvc);
    forall i: nat ensures VAReady(T, r, c, i) {
      if i < |c.reqQ| { assert InOk(T, r, c, c.reqQ[i].0); }
    }
  }

  // The input VCs granted are distinct, and none has a switch request yet.
  ghost predicate FreshReqs(T: Topo, r: int, sw: map<VC, SwReq>, gr: seq<(VC, VC)>)
    requires T.ValidRouter(r)
  {
    && (forall n {:trigger gr[n]} :: 0 <= n < |gr| ==>
          gr[n].0 !in sw && gr[n].0 in Grid(T.npc[r], T.nvc) && 0 <= gr[n].1.pc < T.npc[r])
    && AllApart(gr)
  }

  lemma {:induction false} FreshAt(T: Topo, r: int, sw: map<VC, SwReq>, gr: seq<(VC, VC)>, n: nat, now: int)
    requires T.ValidRouter(r) && FreshReqs(T, r, sw, gr) && n < |gr|
    ensures gr[n].0 !in AddReqs(sw, gr, n, now) && gr[n].0 in Grid(T.npc[r], T.nvc) && 0 <= gr[n].1.pc < T.npc[r]
    ensures AddReqs(sw, gr, n + 1, now) == AddReqs(sw, gr, n, now)[gr[n].0 := SwReq(gr[n].1.pc, gr[n].1.vc, now)]
  {
    forall j | 0 <= j < n ensures gr[j].0 != gr[n].0 { assert Apart(gr, j, n); }
    AddReqsKeys(sw, gr, n, now);
  }

  lemma GrantedFresh(T: Topo, r: int, c0: Ctl, c: Ctl, d: seq<nat>, gr: seq<(VC, VC)>)
    requires T.ValidRouter(r) && VASafe(T, r, c0) && ModsAgree(c0, c, d, gr, |c0.reqQ|) && Ascending(d, |c0.reqQ|)
    ensures FreshReqs(T, r, c0.sw, gr)
  {
    forall n | 0 <= n < |gr|
      ensures gr[n].0 !in c0.sw && gr[n].0 in Grid(T.npc[r], T.nvc) && 0 <= gr[n].1.pc < T.npc[r] {
      assert VAReady(T, r, c0, d[n]) && GrantedAt(c0, c, d, gr, n);
    }
    forall m, n ensures Apart(gr, m, n) {
      if 0 <= m < n < |gr| {
        assert Apart(c0.reqQ, d[m], d[n]) && GrantedAt(c0, c, d, gr, m) && GrantedAt(c0, c, d, gr, n);
      }
    }
  }

  // When all requests are decided, the deletions and the switch requests are all that is missing.
  lemma {:induction false} DecidedEnd(T: Topo, c0: Ctl, admit: (int, VC, int) -> bool, now: int, c: Ctl, d: seq<nat>,
          gr: seq<(VC, VC)>)
    requires Decided(T, c0, admit, now, c, d, gr, |c0.reqQ|)
    ensures VACtl(T, c0, admit, 0, now) == c && c.reqQ == Kept(c0.reqQ, d, |c0.reqQ|)
  {}

  // ---------- stageRC ----------

  predicate Routes(c: Ctl, route: VC -> Option<int>, k: VC) {
    In(c, k).st.I? && Q(c, k) != [] && Q(c, k)[0].IsHead() && route(k).Some?
  }

  lemma RouteNext(s: Net, r: int, route: VC -> Option<int>, pc: int, n: nat)
    requires 0 <= r < |s.rs|
    ensures var c := RouteRow(s, r, route, pc, n).rs[r].c;
            RouteRow(s, r, route, pc, n + 1).rs[r].c ==
              (if Routes(c, route, VC(pc, n)) then Route(c, VC(pc, n), route(VC(pc, n)).value) else c)
  {}

  // Only the control state of router r changes.
  ghost predicate OnlyCtl(s: Net, s': Net, r: int)
    requires 0 <= r < |s.rs|
  {
    |s'.rs| == |s.rs| && s' == Upd(s, r, s.rs[r].(c := s'.rs[r].c))
  }

  lemma {:induction false} RouteRowKeeps(s: Net, r: int, route: VC -> Option<int>, pc: int, n: nat)
    requires 0 <= r < |s.rs|
    ensures OnlyCtl(s, RouteRow(s, r, route, pc, n), r)
  {
    if n > 0 { RouteRowKeeps(s, r, route, pc, n - 1); }
  }

  lemma {:induction false} RouteUptoKeeps(T: Topo, s: Net, r: int, route: VC -> Option<int>, n: nat)
    requires Sized(T, s) && 0 <= r < |s.rs|
    ensures OnlyCtl(s, RouteUpto(T, s, r, route, n), r)
  {
    if n > 0 {
      RouteUptoKeeps(T, s, r, route, n - 1);
      RouteRowKeeps(RouteUpto(T, s, r, route, n - 1), r, route, n - 1, T.nvc);
    }
  }

  // ---------- router_sim ----------

  // What the first stages assert of a state.
  ghost predicate FrontOk(T: Topo, s: Net, r: int) {
    Sized(T, s) && 0 <= r < |s.rs| &&
    (var s1 := IncAll(T, s, r);
     var s2 := LTUpto(T, s1, r, T.npc[r]);
     var s3 := STUpto(T, s2, r, T.npc[r]);
     && s1.now == s.now && s2.now == s.now && s3.now == s.now
     && IncsFit(T, s.rs[r], s.now) && s1 == Upd(s, r, Incs(T, s.rs[r], s.now))
     && LTSafe(T, s1, r, T.npc[r]) && STSafe(T, s2, r, T.npc[r]) && AskSafe(T, s3, r)
     && Ask(T, s3, r) == Upd(s3, r, Ask(T, s3, r).rs[r]))
  }

  ghost function BeforeVA(T: Topo, s: Net, r: int, ch: Choice): (s': Net)
    requires Sized(T, s) && 0 <= r < |s.rs|
    ensures Sized(T, s')
  {
    var s1 := GrantUpto(T, s, r, ch.sa, |ch.sa|);
    if T.lookahead then RouteUpto(T, s1, r, ch.route, T.npc[r]) else s1
  }

  ghost function BeforeRan(T: Topo, s: Net, r: int, ch: Choice): (s': Net)
    requires Sized(T, s) && 0 <= r < |s.rs|
    ensures Sized(T, s')
  {
    var s1 := if T.spec then GrantUpto(T, s, r, ch.ssa, |ch.ssa|) else s;
    if T.lookahead then s1 else RouteUpto(T, s1, r, ch.route, T.npc[r])
  }

  lemma {:induction false} GrantUptoOnly(T: Topo, s: Net, r: int, gs: seq<VC>, n: nat)
    requires Sized(T, s) && 0 <= r < |s.rs| && n <= |gs|
    ensures GrantUpto(T, s, r, gs, n) == Upd(s, r, GrantUpto(T, s, r, gs, n).rs[r])
  {
    if n > 0 { GrantUptoOnly(T, s, r, gs, n - 1); }
  }

  lemma MiddleFinds(T: Topo, s: Net, r: int, ch: Choice)
    requires Inv(T, s) && 0 <= r < |s.rs| && RouteOk(T, r, ch.route) && GrantsOk(T, r, s.rs[r], s.now, false, ch.sa)
    ensures var s1 := GrantUpto(T, s, r, ch.sa, |ch.sa|);
            var s2 := BeforeVA(T, s, r, ch);
            && s1 == Upd(s, r, s1.rs[r]) && s2.now == s.now && |s2.rs| == |s.rs| && VASafe(T, r, s2.rs[r].c)
            && (T.lookahead ==> s2 == Upd(s1, r, RouteUpto(T, s1, r, ch.route, T.npc[r]).rs[r]))
            && Middle(T, s, r, ch) == Upd(s2, r, VAFrom(T, s2, r, ch.admit, 0).rs[r])
  {
    var s1 := GrantUpto(T, s, r, ch.sa, |ch.sa|);
    GrantUptoOnly(T, s, r, ch.sa, |ch.sa|);
    GrantUptoInv(T, s, r, false, ch.sa, |ch.sa|);
    if T.lookahead {
      RouteUptoInv(T, s1, r, ch.route, T.npc[r]);
      RouteUptoKeeps(T, s1, r, ch.route, T.npc[r]);
    }
    var s2 := BeforeVA(T, s, r, ch);
    assert Control(T, r, s2.rs[r].c);
    VAFinds(T, r, s2.rs[r].c);
    VAFromIs(T, s2, r, ch.admit, 0);
  }

  lemma BackFinds(T: Topo, s: Net, r: int, ch: Choice)
    requires Inv(T, s) && 0 <= r < |s.rs| && RouteOk(T, r, ch.route)
    requires T.spec ==> GrantsOk(T, r, s.rs[r], s.now, true, ch.ssa)
    ensures var s1 := if T.spec then GrantUpto(T, s, r, ch.ssa, |ch.ssa|) else s;
            var s2 := BeforeRan(T, s, r, ch);
            && s1 == Upd(s, r, s1.rs[r]) && s2.now == s.now && |s2.rs| == |s.rs|
            && (!T.lookahead ==> s2 == Upd(s1, r, RouteUpto(T, s1, r, ch.route, T.npc[r]).rs[r]))
            && Back(T, s, r, ch) == Upd(s2, r, s2.rs[r].(ran := s.now))
  {
    var s1 := if T.spec then GrantUpto(T, s, r, ch.ssa, |ch.ssa|) else s;
    if T.spec { GrantUptoOnly(T, s, r, ch.ssa, |ch.ssa|); }
    if !T.lookahead { RouteUptoKeeps(T, s1, r, ch.route, T.npc[r]); }
  }

  // The network is as runs of the state machine leave it, and router r has not run yet in this cycle.
  ghost predicate CanSim(T: Topo, s: Net, r: int) { Good(T, s) && 0 <= r < |s.rs| && s.rs[r].ran < s.now }

  lemma SimFinds(T: Topo, s: Net, r: int)
    requires CanSim(T, s, r)
    ensures Sized(T, s) && FrontOk(T, s, r)
    ensures Inv(T, Front(T, s, r)) && Front(T, s, r).now == s.now && |Front(T, s, r).rs| == |s.rs|
  {
    assert Rested(T, r, s.rs[r], s.now);
    FrontFinds(T, s, r);
    FrontInv(T, s, r);
  }

  lemma FrontFinds(T: Topo, s: Net, r: int)
    requires Inv(T, s) && 0 <= r < |s.rs| && Rested(T, r, s.rs[r], s.now) && s.rs[r].ran < s.now
    ensures FrontOk(T, s, r)
  {
    IncAllFits(T, s, r);
    IncAllInv(T, s, r);
    var s1 := IncAll(T, s, r);
    assert LTDone(T, s1, s1, r, 0) by {
      forall op | 0 <= op < T.npc[r] ensures LastLT(s1.rs[r], op) < s.now { assert LastLT(s.rs[r], op) == s.rs[r].ran; }
    }
    forall op: nat | op < T.npc[r] ensures LTReady(T, LTUpto(T, s1, r, op), r, op, s.now) { LTFinds(T, s1, r, op); }
    LTUptoInv(T, s1, r, T.npc[r]);
    var s2 := LTUpto(T, s1, r, T.npc[r]);
    assert OldGrants(s2.rs[r], s.now) by {
      forall op | op in s2.rs[r].c.xown ensures XClk(s2.rs[r], op) < s.now { assert XClk(s.rs[r], op) <= s.rs[r].ran; }
    }
    forall ip: nat | ip < T.npc[r] ensures STReady(T, STUpto(T, s2, r, ip), r, ip, s.now) { STFinds(T, s2, r, ip); }
    STUptoInv(T, s2, r, T.npc[r]);
    var s3 := STUpto(T, s2, r, T.npc[r]);
    AskFinds(T, s3, r);
    var ks := FreeKeys(s3.rs[r].c.sw, T.npc[r], T.nvc);
    AskOnly(s3, r, ks, |ks|);
  }

  lemma {:induction false} AskOnly(s: Net, r: int, ks: seq<VC>, n: nat)
    requires 0 <= r < |s.rs| && n <= |ks|
    ensures AskUpto(s, r, ks, n) == Upd(s, r, AskUpto(s, r, ks, n).rs[r])
  {
    if n > 0 { AskOnly(s, r, ks, n - 1); }
  }

  lemma SimMid(T: Topo, s: Net, r: int, ch: Choice)
    requires CanSim(T, s, r) && Sized(T, s) && RouteOk(T, r, ch.route)
    requires GrantsOk(T, r, Front(T, s, r).rs[r], s.now, false, ch.sa)
    ensures var s2 := Middle(T, Front(T, s, r), r, ch); Inv(T, s2) && s2.now == s.now && |s2.rs| == |s.rs|
  {
    assert Rested(T, r, s.rs[r], s.now);
    FrontInv(T, s, r);
    var s1 := Front(T, s, r);
    forall op | op in s1.rs[r].c.xown ensures XClk(s1.rs[r], op) <= s.now { assert XClk(s1.rs[r], op) < s.now; }
    MiddleInv(T, s1, r, ch);
  }

  // The grants of the second round do not matter for the first.
  lemma SimIs(T: Topo, s: Net, r: int, ch1: Choice, ch: Choice)
    requires Sized(T, s) && 0 <= r < |s.rs| && ch == ch1.(ssa := ch.ssa)
    ensures Middle(T, Front(T, s, r), r, ch) == Middle(T, Front(T, s, r), r, ch1)
    ensures Stages.RouterSim(T, s, r, ch) == Back(T, Middle(T, Front(T, s, r), r, ch1), r, ch)
  {}
}
