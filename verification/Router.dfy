// The router as the program runs it: an object whose stages update its modules, crossbar, links, buffers
// and credits in place. A network is a sequence of routers; each stage is proved to take the network from
// one state of the state machine to the next, and finds every assertion of the program true on its way.

module Routers {
  import opened Wiring
  import opened Flits
  import opened Protocol
  import opened Invariant
  import opened Stages
  import opened StageProofs
  import opened FlitQs
  import opened VCArbs
  import opened SwArb
  import opened VAStage
  import opened Runs
  import opened Assertions
  import opened MapSize

  // m_waiting_in_vc_vec, and the entries of m_outport_free_vec that are false.
  datatype XBar = XBar(waiting: map<int, int>, taken: set<int>)

  // The fields of the state machine that no stage reads.
  datatype Trace = Trace(owner: map<VC, VC>, xown: map<int, int>, got: map<VC, seq<Flit>>, sent: map<VC, seq<Flit>>)
  datatype Clocks = Clocks(xclk: map<int, int>, lt: map<int, int>, ran: int)

  class Router {
    const T: Topo
    const id: nat
    const flitQ: FlitQ
    const vcArb: VCArbFCFS
    const swArb: SwArb2Stage
    var inm: map<VC, InMod>             // m_in_mod_vec
    var busy: set<VC>                   // m_out_mod_vec, the entries in state OUT_MOD_V
    var cred: map<VC, Cred>             // m_out_mod_vec, the credits
    var xbar: XBar                      // m_xbar
    var link: map<int, seq<Wire>>       // m_link_vec[].m_w_pipeline
    var deps: seq<Credit>               // m_credit_deposit_vec
    var inside: int                     // m_num_flits_inside
    var pending: map<VC, seq<Flit>>     // what the network interfaces still have to write
    ghost var trace: Trace
    ghost var clocks: Clocks

    // This router is in state rs of the state machine.
    ghost predicate Is(rs: RouterState)
      reads this, flitQ, vcArb, swArb
    {
      && IsCtl(rs.c)
      && cred == rs.cred && link == rs.link && deps == rs.deps && inside == rs.inside && pending == rs.pending
      && clocks == Clocks(rs.xclk, rs.lt, rs.ran)
    }

    ghost predicate IsCtl(c: Ctl)
      reads this`inm, this`busy, this`xbar, this`trace, flitQ, vcArb, swArb
    {
      && flitQ.q == c.q && inm == c.inm && busy == c.busy && xbar == XBar(c.waiting, c.taken)
      && vcArb.reqQ == c.reqQ && swArb.reqs == c.sw && trace == Trace(c.owner, c.xown, c.got, c.sent)
    }

    ghost predicate Fits()
      reads swArb
    {
      && T.ValidRouter(id) && flitQ.T == T && flitQ.id == vcArb.id == swArb.id == id
      && swArb.npc == T.npc[id] && swArb.nvc == T.nvc && swArb.Valid()
    }

    // v1RR and p1RR choose round robin for the stages of the switch arbiter (router_sa_v1_type, router_sa_p1_type).
    constructor (T: Topo, id: nat, v1RR: bool, p1RR: bool)
      requires T.ValidRouter(id)
      ensures this.T == T && this.id == id && Is(NEW_ROUTER) && Fits()
      ensures fresh(flitQ) && fresh(vcArb) && fresh(swArb)
    {
      this.T, this.id := T, id;
      flitQ := new FlitQ(T, id);
      vcArb := new VCArbFCFS(id);
      swArb := new SwArb2Stage(id, T.npc[id], T.nvc, v1RR, p1RR);
      inm, busy, cred, xbar, link, deps, inside, pending := map[], {}, map[], XBar(map[], {}), map[], [], 0, map[];
      trace, clocks := Trace(map[], map[], map[], map[]), Clocks(map[], map[], -1);
    }

    function InMod(k: VC): InMod
      reads this
    {
      if k in inm then inm[k] else Protocol.InMod(I, INVALID_PC, INVALID_VC)
    }

    function WaitingVC(pc: int): int
      reads this
    {
      if pc in xbar.waiting then xbar.waiting[pc] else INVALID_VC
    }

    function Credits(o: VC): Cred
      reads this
    {
      if o in cred then cred[o] else Cred(T.depth - T.rsv, T.rsv)
    }

    function Wires(op: int): seq<Wire>
      reads this
    {
      if op in link then link[op] else []
    }

    // ---------- credits ----------

    method DepositCredit(c: Credit, ghost rs: RouterState)
      requires Is(rs)
      modifies this`deps
      ensures Is(Deposit(rs, c))
    {
      deps := deps + [c];
    }

    method SharedCredits(op: int) returns (sum: int)
      ensures sum == SumCredit(T, cred, op, T.nvc)
    {
      sum := 0;
      for vc := 0 to T.nvc
        invariant sum == SumCredit(T, cred, op, vc)
      {
        sum := sum + Credits(VC(op, vc)).num;
      }
    }

    // Callers need not ask about ejection ports.
    method HasCredit(o: VC) returns (has: bool)
      requires T.damq ==> SumCredit(T, cred, o.pc, T.nvc) >= 0
      ensures has == Protocol.HasCredit(T, cred, o)
    {
      if !T.damq {
        has := Credits(o).num >= 1;
      } else {
        var shared := SharedCredits(o.pc);
        assert shared >= 0;
        has := if shared >= 1 then true else Credits(o).rsv >= 1;
      }
    }

    method DecCredit(o: VC)
      requires T.IsEject(id, o.pc) || Protocol.HasCredit(T, cred, o)
      modifies this`cred
      ensures cred == if T.IsEject(id, o.pc) then old(cred) else Protocol.DecCredit(T, old(cred), o)
    {
      if T.IsEject(id, o.pc) { return; }
      var m := Credits(o);
      if !T.damq {
        cred := cred[o := m.(num := m.num - 1)];
        assert Credits(o).num >= 0;
      } else {
        var shared := SharedCredits(o.pc);
        if shared >= 1 {
          cred := cred[o := m.(num := m.num - 1)];
        } else {
          assert m.rsv >= 1;
          cred := cred[o := m.(rsv := m.rsv - 1)];
        }
      }
    }

    // One round of the loop in incCredit.
    method AddCredit(c: Credit)
      modifies this`cred
      ensures cred == Protocol.AddCredit(T, old(cred), VC(c.outPc, c.outVc), c.num)
    {
      var o := VC(c.outPc, c.outVc);
      var m := Credits(o);
      if !T.damq {
        cred := cred[o := m.(num := m.num + c.num)];
      } else {
        var shared := c.num;
        var rsv := m.rsv;
        if m.rsv < T.rsv {
          var back := if T.rsv - m.rsv < c.num then T.rsv - m.rsv else c.num;
          shared := c.num - back;
          assert shared >= 0;
          rsv := m.rsv + back;
        }
        cred := cred[o := Cred(m.num + shared, rsv)];
      }
    }

    // Every deposited credit up to the first one that is not due becomes usable.
    method IncCredit(now: int, ghost rs: RouterState)
      requires Is(rs) && IncsFit(T, rs, now)
      modifies this`deps, this`cred
      ensures Is(Incs(T, rs, now))
    {
      ghost var cur := rs;
      var n := 0;
      while n < |deps| && deps[n].clk <= now
        invariant 0 <= n <= |deps| && deps == old(deps)
        invariant cur == rs.(deps := deps[n..], cred := cred)
        invariant IncsFit(T, cur, now) && Incs(T, cur, now) == Incs(T, rs, now)
      {
        var c := deps[n];
        AddCredit(c);
        n := n + 1;
        cur := Inc(T, cur);
        assert !T.damq ==> Credits(VC(c.outPc, c.outVc)).num <= T.depth;
      }
      deps := deps[n..];
    }

    // ---------- buffers and links ----------

    // A flit enters an input buffer.
    method Accept(k: VC, f: Flit, ghost rs: RouterState)
      requires Is(rs) && flitQ.T == T && !IsFull(T, rs.c, k)
      modifies this`inside, flitQ
      ensures Is(Receive(rs, k, f))
    {
      var full := flitQ.IsFull(k);
      assert !full;
      flitQ.Write(k, f);
      inside := inside + 1;
    }

    // The oldest flit leaves the wire.
    method PopLink(op: int, ghost rs: RouterState)
      requires Is(rs) && Wires(op) != []
      modifies this`inside, this`link
      ensures Is(Unload(rs, op))
    {
      link := link[op := Wires(op)[1..]];
      inside := inside - 1;
    }

    ghost method Stamp(op: int, now: int, rs: RouterState)
      requires Is(rs)
      modifies this`clocks
      ensures Is(StampLT(rs, op, now))
    {
      clocks := clocks.(lt := clocks.lt[op := now]);
    }

    method AcceptIn(net: Network, ghost s: Net, k: VC, f: Flit)
      requires net.Shows(s) && net.Has(this) && !IsFull(T, s.rs[id].c, k)
      modifies net.repr
      ensures net.Shows(Upd(s, id, Receive(s.rs[id], k, f)))
    {
      Accept(k, f, s.rs[id]);
    }

    method PopFrom(net: Network, ghost s: Net, op: int)
      requires net.Shows(s) && net.Has(this) && Link(s.rs[id].link, op) != []
      modifies net.repr
      ensures net.Shows(Upd(s, id, Unload(s.rs[id], op)))
    {
      PopLink(op, s.rs[id]);
    }

    ghost method StampAt(net: Network, s: Net, op: int, now: int)
      requires net.Shows(s) && net.Has(this)
      modifies net.repr
      ensures net.Shows(Upd(s, id, StampLT(s.rs[id], op, now)))
    {
      Stamp(op, now, s.rs[id]);
    }

    // The flit at the end of a wire goes into the downstream buffer.
    method MoveFlit(net: Network, op: int, ghost s: Net)
      requires net.Shows(s) && net.Has(this) && Link(s.rs[id].link, op) != [] && HasRoom(T, s, id, op)
      modifies net.repr
      ensures net.Shows(Move(T, s, id, op))
    {
      var w := Wires(op)[0];
      var p := T.Down(Port(id, op)).value;
      PopFrom(net, s, op);
      net.routers[p.router].AcceptIn(net, Upd(s, id, Unload(s.rs[id], op)), VC(p.pc, w.vc), w.flit);
    }

    // One round of stageLT.
    method LinkPort(net: Network, op: int, now: int, ghost s: Net)
      requires net.Shows(s) && net.Has(this) && s.now == now
      requires Link(s.rs[id].link, op) != [] ==> HasRoom(T, s, id, op)
      modifies net.repr
      ensures net.Shows(LTPort(T, s, id, op))
    {
      var wires := Wires(op);
      StampAt(net, s, op, now);
      if wires == [] { return; }
      var lat := T.Lat(Port(id, op));
      if lat > 1 && now - wires[0].clk < lat { return; }
      MoveFlit(net, op, Upd(s, id, StampLT(s.rs[id], op, now)));
    }

    method StageLT(net: Network, now: int, ghost s: Net)
      requires net.Shows(s) && net.Has(this) && s.now == now
      requires Sized(T, s) && LTSafe(T, s, id, T.npc[id])
      modifies net.repr
      ensures net.Shows(LTUpto(T, s, id, T.npc[id]))
    {
      for op := 0 to T.npc[id]
        invariant net.Shows(LTUpto(T, s, id, op))
      {
        assert LTReady(T, LTUpto(T, s, id, op), id, op, now);
        LinkPort(net, op, now, LTUpto(T, s, id, op));
      }
    }

    // ---------- stageST ----------

    // The flit goes onto the wire of its output port, or to the network interface of an ejection port.
    method Send(o: VC, f: Flit, now: int, ghost rs: RouterState)
      requires Is(rs)
      requires T.IsEject(id, o.pc) || (T.Down(Port(id, o.pc)).Some? && |Wires(o.pc)| < T.Lat(Port(id, o.pc)))
      modifies this`inside, this`link
      ensures Is(rs.(inside := if T.IsEject(id, o.pc) then rs.inside - 1 else rs.inside,
                     link := if T.IsEject(id, o.pc) then rs.link
                             else rs.link[o.pc := Link(rs.link, o.pc) + [Wire(f, o.vc, now)]]))
    {
      if T.IsEject(id, o.pc) {
        inside := inside - 1;
      } else {
        assert T.Down(Port(id, o.pc)).Some?;
        assert |Wires(o.pc)| < T.Lat(Port(id, o.pc));
        link := link[o.pc := Wires(o.pc) + [Wire(f, o.vc, now)]];
      }
    }

    // The crossbar ports are free again; a tail flit frees the input and the output VC as well.
    method Release(k: VC, f: Flit, o: VC)
      requires o.pc in xbar.taken && (f.IsTail() ==> o in busy)
      modifies this`xbar, this`inm, this`busy
      ensures xbar == XBar(old(xbar.waiting)[k.pc := INVALID_VC], old(xbar.taken) - {o.pc})
      ensures inm == if f.IsTail() then old(inm)[k := Protocol.InMod(I, INVALID_PC, INVALID_VC)] else old(inm)
      ensures busy == if f.IsTail() then old(busy) - {o} else old(busy)
    {
      assert o.pc in xbar.taken;
      xbar := XBar(xbar.waiting[k.pc := INVALID_VC], xbar.taken - {o.pc});
      if f.IsTail() {
        inm := inm[k := Protocol.InMod(I, INVALID_PC, INVALID_VC)];
        assert o in busy;
        busy := busy - {o};
      }
    }

    // The flit the crossbar waits for on input port ip leaves its buffer.
    method Leave(ip: int, ghost c: Ctl) returns (o: VC, f: Flit)
      requires IsCtl(c) && Q(c, VC(ip, Waiting(c, ip))) != []
      requires var m := In(c, VC(ip, Waiting(c, ip)));
               && m.st.S? && m.outPc in c.taken
               && (Q(c, VC(ip, Waiting(c, ip)))[0].IsTail() ==> VC(m.outPc, m.outVc) in c.busy)
      modifies this`xbar, this`inm, this`busy, this`trace, flitQ
      ensures var k := VC(ip, Waiting(c, ip));
              f == Q(c, k)[0] && o == VC(In(c, k).outPc, In(c, k).outVc)
      ensures IsCtl(Traverse(c, ip))
    {
      var k := VC(ip, WaitingVC(ip));
      var m := InMod(k);
      assert m.st.S?;
      o := VC(m.outPc, m.outVc);
      f := flitQ.Read(k);
      Release(k, f, o);
      trace := Trace(if f.IsTail() then trace.owner - {o} else trace.owner,
                     trace.xown - {o.pc},
                     trace.got[k := Queue(trace.got, k) + [f]],
                     trace.sent[o := Queue(trace.sent, o) + [f]]);
    }

    // One round of stageST, but for the credit.
    method CrossPort(ip: int, now: int, ghost rs: RouterState)
      requires Is(rs) && CrossOk(T, id, rs, ip)
      modifies this`inside, this`link, this`xbar, this`inm, this`busy, this`trace, flitQ
      ensures Is(Cross(T, id, rs, ip, now))
    {
      var o, f := Leave(ip, rs.c);
      Send(o, f, now, rs.(c := Traverse(rs.c, ip)));
    }

    method CrossIn(net: Network, ghost s: Net, ip: int, now: int)
      requires net.Shows(s) && net.Has(this) && CrossOk(T, id, s.rs[id], ip)
      modifies net.repr
      ensures net.Shows(Upd(s, id, Cross(T, id, s.rs[id], ip, now)))
    {
      CrossPort(ip, now, s.rs[id]);
      ghost var n := |s.rs|;
      forall i | 0 <= i < n && i != id ensures net.routers[i].Is(s.rs[i]) && net.routers[i].Fits() {
        ghost var x := net.routers[i];
        assert old(x.Is(s.rs[i]) && x.Fits());
        assert x != this && x.flitQ != flitQ && x.swArb != swArb && x.vcArb != vcArb;
      }
    }

    method DepositIn(net: Network, ghost s: Net, c: Credit)
      requires net.Shows(s) && net.Has(this)
      modifies net.repr
      ensures net.Shows(Upd(s, id, Deposit(s.rs[id], c)))
    {
      DepositCredit(c, s.rs[id]);
    }

    // The router upstream gets a credit for the place the flit left.
    method GiveBackIn(net: Network, ghost s: Net, k: VC, up: Option<Port>, now: int)
      requires net.Shows(s) && s.now == now && (up.Some? ==> up.value.router < |s.rs| && 0 <= up.value.router)
      modifies net.repr
      ensures net.Shows(GiveBack(T, s, k, up))
    {
      if up.Some? {
        ghost var s' := GiveBack(T, s, k, up);
        var c := Credit(up.value.pc, k.vc, 1, now + T.Lat(up.value));
        assert s' == Upd(s, up.value.router, Deposit(s.rs[up.value.router], c));
        net.routers[up.value.router].DepositIn(net, s, c);
      }
    }

    // One round of stageST.
    method XbarPort(net: Network, ip: int, now: int, ghost s: Net)
      requires net.Shows(s) && net.Has(this) && s.now == now && Waiting(s.rs[id].c, ip) != INVALID_VC
      requires CrossOk(T, id, s.rs[id], ip)
      modifies net.repr
      ensures Sized(T, s) && net.Shows(STPort(T, s, id, ip))
    {
      assert Sized(T, s);
      var vc := WaitingVC(ip);
      CrossIn(net, s, ip, now);
      GiveBackIn(net, Upd(s, id, Cross(T, id, s.rs[id], ip, now)), VC(ip, vc), T.Up(Port(id, ip)), now);
    }

    method StageST(net: Network, now: int, ghost s: Net)
      requires net.Shows(s) && net.Has(this) && s.now == now && Sized(T, s)
      requires STSafe(T, s, id, T.npc[id])
      modifies net.repr
      ensures net.Shows(STUpto(T, s, id, T.npc[id]))
    {
      for ip := 0 to T.npc[id]
        invariant net.Shows(STUpto(T, s, id, ip))
      {
        ghost var cur := STUpto(T, s, id, ip);
        assert STReady(T, cur, id, ip, now);
        STNext(T, s, id, ip);
        if WaitingVC(ip) != INVALID_VC {
          XbarPort(net, ip, now, cur);
        }
      }
    }

    // ---------- stageSA and stageSSA ----------

    // A middle or tail flit in front asks for the switch once the head of its packet has been through it.
    method AskOne(k: VC, now: int, ghost c: Ctl)
      requires Fits() && IsCtl(c) && AskReady(T, id, c, k)
      modifies swArb
      ensures Fits() && IsCtl(if Asks(c, k) then Request(c, k, now) else c)
    {
      if flitQ.IsEmpty(k) { return; }
      if flitQ.Peek(k).IsHead() { return; }
      if !InMod(k).st.S? { return; }
      swArb.Add(k, InMod(k).outPc, InMod(k).outVc, now);
    }

    method AskForSwitch(now: int, ghost s: Net)
      requires id < |s.rs| && Is(s.rs[id]) && Fits() && s.now == now && Sized(T, s) && AskSafe(T, s, id)
      modifies swArb
      ensures Fits() && Is(Ask(T, s, id).rs[id])
    {
      var ks := swArb.GetFreeInPorts();
      for n := 0 to |ks|
        invariant Fits() && IsCtl(AskUpto(s, id, ks, n).rs[id].c)
      {
        ghost var c := AskUpto(s, id, ks, n).rs[id].c;
        assert AskReady(T, id, c, ks[n]);
        AskOne(ks[n], now, c);
        AskNext(s, id, ks, n);
      }
      AskKeeps(s, id, ks, |ks|);
    }

    // The credits of the granted requests are taken.
    method TakeCredits(outs: seq<VC>, ghost now: int, ghost gs: seq<VC>, ghost st: seq<RouterState>)
      requires GrantChain(T, id, now, gs, outs, st) && cred == st[0].cred
      modifies this`cred
      ensures cred == st[|gs|].cred
    {
      for n := 0 to |outs|
        invariant cred == st[n].cred
      {
        GrantLink(T, id, now, gs, outs, st, n);
        DecCredit(outs[n]);
      }
    }

    ghost predicate PortsAre(rs: RouterState)
      reads this`xbar, this`inm, this`trace, this`clocks
    {
      && xbar == XBar(rs.c.waiting, rs.c.taken) && inm == rs.c.inm
      && trace.xown == rs.c.xown && clocks.xclk == rs.xclk
    }

    // The fields a round of grants leaves alone.
    ghost predicate IsBut(rs: RouterState)
      reads this`busy, this`trace, this`link, this`deps, this`inside, this`pending, this`clocks, flitQ, vcArb
    {
      && flitQ.q == rs.c.q && busy == rs.c.busy && vcArb.reqQ == rs.c.reqQ
      && trace.owner == rs.c.owner && trace.got == rs.c.got && trace.sent == rs.c.sent
      && link == rs.link && deps == rs.deps && inside == rs.inside && pending == rs.pending
      && clocks.lt == rs.lt && clocks.ran == rs.ran
    }

    // A granted flit takes its crossbar ports.
    method TakePort(k: VC, o: VC, spec: bool, now: int, ghost rs: RouterState, ghost was: RouterState)
      requires IsBut(was) && flitQ.q == rs.c.q && PortsAre(rs) && PortReady(rs.c, k, o)
      requires spec ==> Q(rs.c, k)[0].IsHead()
      modifies this`xbar, this`inm, this`trace, this`clocks
      ensures IsBut(was) && PortsAre(Take(T, id, rs, k, now))
    {
      TakeIs(T, id, rs, k, o, now);
      var f := flitQ.Peek(k);
      assert spec ==> f.IsHead();
      assert WaitingVC(k.pc) == INVALID_VC;
      assert o.pc !in xbar.taken;
      xbar := XBar(xbar.waiting[k.pc := k.vc], xbar.taken + {o.pc});
      if f.IsHead() {
        assert InMod(k).st.V?;
        inm := inm[k := InMod(k).(st := S)];
      }
      trace := trace.(xown := trace.xown[o.pc := k.pc]);
      clocks := clocks.(xclk := clocks.xclk[o.pc := now]);
    }

    method TakePorts(gs: seq<VC>, outs: seq<VC>, spec: bool, now: int, ghost st: seq<RouterState>)
      requires GrantChain(T, id, now, gs, outs, st) && IsBut(st[0]) && PortsAre(st[0])
      requires spec ==>
                 forall n {:trigger gs[n]} :: 0 <= n < |gs| ==> Q(st[n].c, gs[n]) != [] && Q(st[n].c, gs[n])[0].IsHead()
      modifies this`xbar, this`inm, this`trace, this`clocks
      ensures IsBut(st[0]) && PortsAre(st[|gs|])
    {
      for n := 0 to |gs|
        invariant IsBut(st[0]) && PortsAre(st[n]) && flitQ.q == st[n].c.q
      {
        GrantLink(T, id, now, gs, outs, st, n);
        TakePort(gs[n], outs[n], spec, now, st[n], st[0]);
      }
    }

    method TakeAll(gs: seq<VC>, outs: seq<VC>, spec: bool, now: int, ghost st: seq<RouterState>)
      requires GrantChain(T, id, now, gs, outs, st) && GrantKeeps(st[0], st[|gs|], gs, |gs|)
      requires IsBut(st[0]) && cred == st[0].cred && PortsAre(st[0]) && swArb.reqs == Without(st[0].c.sw, gs, |gs|)
      requires spec ==>
                 forall n {:trigger gs[n]} :: 0 <= n < |gs| ==> Q(st[n].c, gs[n]) != [] && Q(st[n].c, gs[n])[0].IsHead()
      modifies this`cred, this`xbar, this`inm, this`trace, this`clocks
      ensures Is(st[|gs|])
    {
      TakeCredits(outs, now, gs, st);
      TakePorts(gs, outs, spec, now, st);
      TakenIs(st[0], st[|gs|], gs);
    }

    lemma TakenIs(rs: RouterState, x: RouterState, gs: seq<VC>)
      requires IsBut(rs) && GrantKeeps(rs, x, gs, |gs|)
      requires cred == x.cred && PortsAre(x) && swArb.reqs == Without(rs.c.sw, gs, |gs|)
      ensures Is(x)
    {}

    // The switch arbiter's round: its grants take their credits and crossbar ports.
    method GrantSwitch(spec: bool, now: int, ghost s: Net) returns (ghost gs: seq<VC>)
      requires id < |s.rs| && Is(s.rs[id]) && Fits() && s.now == now && Inv(T, s)
      modifies this`cred, this`xbar, this`inm, this`trace, this`clocks, swArb
      ensures Fits() && GrantsOk(T, id, s.rs[id], now, spec, gs)
      ensures Is(GrantUpto(T, s, id, gs, |gs|).rs[id])
    {
      var grants, outs := swArb.GrantGeneric(spec,
                                             RouterView(T, id, flitQ.q, inm, xbar.waiting, xbar.taken, cred, now));
      gs := grants;
      SwitchFinds(T, s, id, spec, old(swArb.At(SwArb2Stage.Pos(spec))), gs, outs);
      TakeAll(grants, outs, spec, now, GrantStates(T, s, id, gs));
    }

    // ---------- stageVA ----------

    // The first output VC of a port that is free and that the routing function admits.
    method FindVC(k: VC, op: int, admit: (int, VC, int) -> bool, ghost c: Ctl) returns (ov: Option<int>)
      requires busy == c.busy
      ensures ov == FirstVC(T, c, admit, k, op, 0)
    {
      var search := 0;
      while search < T.nvc && !(VC(op, search) !in busy && admit(search, k, op))
        invariant 0 <= search <= T.nvc
        invariant FirstVC(T, c, admit, k, op, search) == FirstVC(T, c, admit, k, op, 0)
      {
        search := search + 1;
      }
      ov := if search < T.nvc then Some(search) else None;
    }

    // One request is granted: input and output module go to state V.
    method ReserveVC(k: VC, op: int, ov: int, ghost c: Ctl, ghost p: nat, ghost now: int)
      requires inm == c.inm && busy == c.busy && trace.owner == c.owner
      requires p < |c.reqQ| && c.reqQ[p] == (k, op) && In(c, k) == Protocol.InMod(R, op, INVALID_VC) &&
               VC(op, ov) !in busy
      modifies this`inm, this`busy, this`trace
      ensures inm == Allocate(c, p, ov, now).inm && busy == Allocate(c, p, ov, now).busy
      ensures trace == old(trace).(owner := Allocate(c, p, ov, now).owner)
    {
      assert InMod(k).st.R?;
      assert InMod(k).outVc == INVALID_VC;
      inm := inm[k := InMod(k).(st := V, outVc := ov)];
      assert VC(op, ov) !in busy;
      busy := busy + {VC(op, ov)};
      trace := trace.(owner := trace.owner[VC(op, ov) := k]);
    }

    // The first i requests are decided.
    ghost predicate Deciding(admit: (int, VC, int) -> bool, now: int, c0: Ctl, c: Ctl, d: seq<nat>, gr: seq<(VC, VC)>,
                             i: nat)
      reads this`inm, this`busy, this`trace, vcArb, flitQ
    {
      && T.ValidRouter(id) && VASafe(T, id, c0) && vcArb.reqQ == c0.reqQ && flitQ.q == c0.q
      && Decided(T, c0, admit, now, c, d, gr, i) && ModsAgree(c0, c, d, gr, i)
      && inm == c.inm && busy == c.busy && trace.owner == c.owner
    }

    lemma DecidingStart(admit: (int, VC, int) -> bool, now: int, c0: Ctl)
      requires T.ValidRouter(id) && IsCtl(c0) && VASafe(T, id, c0)
      ensures Deciding(admit, now, c0, c0, [], [], 0)
    {
      DecidedStart(T, c0, admit, now);
    }

    // One round of the loop in VCArbFCFS::grant. So far d are the positions of the granted requests and gr
    // the grants, and c is the state in which they have been carried out.
    method DecideVC(i: nat, admit: (int, VC, int) -> bool, ghost now: int, ghost c0: Ctl, ghost c: Ctl, d: seq<nat>,
                    gr: seq<(VC, VC)>)
      returns (ghost c': Ctl, d': seq<nat>, gr': seq<(VC, VC)>)
      requires Deciding(admit, now, c0, c, d, gr, i) && i < |c0.reqQ|
      modifies this`inm, this`busy, this`trace
      ensures Deciding(admit, now, c0, c', d', gr', i + 1) && trace == old(trace).(owner := c'.owner)
    {
      assert VAReady(T, id, c0, i);
      var k, op := vcArb.reqQ[i].0, vcArb.reqQ[i].1;
      assert Untouched(c0, c, i);
      assert op == InMod(k).outPc;
      assert InMod(k).st.R?;
      assert !flitQ.IsEmpty(k);
      var ov := FindVC(k, op, admit, c);
      if ov.None? {
        DecidedSkip(T, c0, admit, now, c, d, gr, i);
        c', d', gr' := c, d, gr;
      } else {
        FirstVCIs(T, c, admit, k, op, 0);
        DecidedGrant(T, c0, admit, now, c, d, gr, i, ov.value);
        ModsGrant(c0, c, d, gr, i, i - |d|, ov.value, now);
        ReserveVC(k, op, ov.value, c, i - |d|, now);
        c', d', gr' := Allocate(c, i - |d|, ov.value, now), d + [i], gr + [(k, VC(op, ov.value))];
      }
    }

    // VCArbFCFS::grant up to its deletions.
    method DecideVCs(admit: (int, VC, int) -> bool, ghost now: int, ghost c0: Ctl)
      returns (d: seq<nat>, gr: seq<(VC, VC)>, ghost c: Ctl)
      requires T.ValidRouter(id) && IsCtl(c0) && VASafe(T, id, c0)
      modifies this`inm, this`busy, this`trace
      ensures Deciding(admit, now, c0, c, d, gr, |c0.reqQ|) && trace == old(trace).(owner := c.owner)
    {
      d, gr, c := [], [], c0;
      DecidingStart(admit, now, c0);
      for i := 0 to |vcArb.reqQ|
        invariant Deciding(admit, now, c0, c, d, gr, i) && trace == old(trace).(owner := c.owner)
      {
        c, d, gr := DecideVC(i, admit, now, c0, c, d, gr);
      }
    }

    // The first n grants have asked for the switch.
    ghost predicate Asked(sw: map<VC, SwReq>, gr: seq<(VC, VC)>, n: nat, now: int)
      reads swArb
    {
      Fits() && n <= |gr| && FreshReqs(T, id, sw, gr) && swArb.reqs == AddReqs(sw, gr, n, now)
    }

    method AskGranted(k: VC, ov: int, now: int, ghost sw: map<VC, SwReq>, ghost gr: seq<(VC, VC)>, ghost n: nat)
      requires Asked(sw, gr, n, now) && n < |gr| && gr[n] == (k, VC(InMod(k).outPc, ov))
      modifies swArb
      ensures Asked(sw, gr, n + 1, now)
    {
      FreshAt(T, id, sw, gr, n, now);
      swArb.Add(k, InMod(k).outPc, ov, now);
    }

    // The granted requests ask for the switch.
    method AskForGranted(gr: seq<(VC, VC)>, now: int)
      requires Fits() && FreshReqs(T, id, swArb.reqs, gr)
      requires forall n {:trigger gr[n]} :: 0 <= n < |gr| ==> InMod(gr[n].0).outPc == gr[n].1.pc
      modifies swArb
      ensures Fits() && swArb.reqs == AddReqs(old(swArb.reqs), gr, |gr|, now)
    {
      ghost var sw := swArb.reqs;
      for n := 0 to |gr|
        invariant Asked(sw, gr, n, now)
      {
        AskGranted(gr[n].0, gr[n].1.vc, now, sw, gr, n);
      }
    }

    method StageVA(admit: (int, VC, int) -> bool, now: int, ghost s: Net)
      requires id < |s.rs| && Is(s.rs[id]) && Fits() && s.now == now && Sized(T, s) && VASafe(T, id, s.rs[id].c)
      modifies this`inm, this`busy, this`trace, vcArb, swArb
      ensures Fits() && Is(VAFrom(T, s, id, admit, 0).rs[id])
    {
      VAFromIs(T, s, id, admit, 0);
      ghost var c0 := s.rs[id].c;
      if vcArb.reqQ == [] { return; }
      var d, gr, c := DecideVCs(admit, now, c0);
      DecidedEnd(T, c0, admit, now, c, d, gr);
      vcArb.DelGranted(d);
      GrantedFresh(T, id, c0, c, d, gr);
      forall n | 0 <= n < |gr| ensures InMod(gr[n].0).outPc == gr[n].1.pc { assert GrantedAt(c0, c, d, gr, n); }
      AskForGranted(gr, now);
    }

    // ---------- stageRC ----------

    // A head flit in front of an idle input VC is routed and asks for an output VC.
    method RouteVC(k: VC, route: VC -> Option<int>, ghost c: Ctl)
      requires IsCtl(c) && (route(k).Some? ==> T.Routable(id, route(k).value))
      modifies this`inm, vcArb
      ensures IsCtl(if Routes(c, route, k) then Route(c, k, route(k).value) else c)
    {
      if !InMod(k).st.I? { return; }
      if flitQ.IsEmpty(k) { return; }
      if !flitQ.Peek(k).IsHead() { return; }
      if route(k).None? { return; }
      var outPc := route(k).value;
      assert T.IsEject(id, outPc) || T.Down(Port(id, outPc)).Some?;
      inm := inm[k := InMod(k).(st := R, outPc := outPc)];
      vcArb.Add(k, outPc);
    }

    method StageRC(route: VC -> Option<int>, ghost s: Net)
      requires id < |s.rs| && Is(s.rs[id]) && T.ValidRouter(id) && Sized(T, s) && RouteOk(T, id, route)
      modifies this`inm, vcArb
      ensures Is(RouteUpto(T, s, id, route, T.npc[id]).rs[id])
    {
      for pc := 0 to T.npc[id]
        invariant IsCtl(RouteUpto(T, s, id, route, pc).rs[id].c)
      {
        ghost var cur := RouteUpto(T, s, id, route, pc);
        for vc := 0 to T.nvc
          invariant IsCtl(RouteRow(cur, id, route, pc, vc).rs[id].c)
        {
          RouteNext(cur, id, route, pc, vc);
          RouteVC(VC(pc, vc), route, RouteRow(cur, id, route, pc, vc).rs[id].c);
        }
      }
      RouteUptoKeeps(T, s, id, route, T.npc[id]);
    }

    // ---------- the network interfaces ----------

    // NIInput::segmentPacket once it holds a packet for a free VC of its port.
    method BeginPacket(net: Network, k: VC, pkt: nat, start: nat, n: nat, ghost s: Net) returns (begun: bool)
      requires net.Shows(s) && net.Has(this) && Pending(s.rs[id], k) == []
      modifies net.repr
      ensures begun == !IsFull(T, s.rs[id].c, k)
      ensures begun ==> net.Shows(Upd(s, id, Reserve(s.rs[id], k, pkt, start, n)))
      ensures !begun ==> net.Shows(s)
    {
      var full := flitQ.IsFull(k);
      begun := !full;
      if begun { ReserveIn(net, k, pkt, start, n, s); }
    }

    method ReserveVCFor(k: VC, pkt: nat, start: nat, n: nat, ghost rs: RouterState)
      requires Is(rs)
      modifies this`pending
      ensures Is(Reserve(rs, k, pkt, start, n))
    {
      pending := pending[k := Cut(pkt, start, n)];
    }

    method ReserveIn(net: Network, k: VC, pkt: nat, start: nat, n: nat, ghost s: Net)
      requires net.Shows(s) && net.Has(this)
      modifies net.repr
      ensures net.Shows(Upd(s, id, Reserve(s.rs[id], k, pkt, start, n)))
    {
      ReserveVCFor(k, pkt, start, n, s.rs[id]);
    }

    // It writes the next flit as soon as there is room.
    method WriteFlit(net: Network, k: VC, ghost s: Net) returns (written: bool)
      requires net.Shows(s) && net.Has(this) && Pending(s.rs[id], k) != []
      modifies net.repr
      ensures written == !IsFull(T, s.rs[id].c, k)
      ensures written ==> net.Shows(Upd(s, id, Inject(s.rs[id], k)))
      ensures !written ==> net.Shows(s)
    {
      var full := flitQ.IsFull(k);
      written := !full;
      if written {
        var f := pending[k][0];
        pending := pending[k := pending[k][1..]];
        Accept(k, f, s.rs[id].(pending := pending));
      }
    }

    // ---------- router_sim ----------

    method IncIn(net: Network, now: int, ghost s: Net)
      requires net.Shows(s) && net.Has(this) && s.now == now && IncsFit(T, s.rs[id], now)
      modifies net.repr
      ensures net.Shows(Upd(s, id, Incs(T, s.rs[id], now)))
    {
      IncCredit(now, s.rs[id]);
    }

    method AskIn(net: Network, now: int, ghost s: Net)
      requires net.Shows(s) && net.Has(this) && s.now == now && Sized(T, s) && AskSafe(T, s, id)
      modifies net.repr
      ensures net.Shows(Upd(s, id, Ask(T, s, id).rs[id]))
    {
      AskForSwitch(now, s);
    }

    method GrantIn(net: Network, spec: bool, now: int, ghost s: Net) returns (ghost gs: seq<VC>)
      requires net.Shows(s) && net.Has(this) && s.now == now && Inv(T, s)
      modifies net.repr
      ensures GrantsOk(T, id, s.rs[id], now, spec, gs)
      ensures net.Shows(Upd(s, id, GrantUpto(T, s, id, gs, |gs|).rs[id]))
    {
      gs := GrantSwitch(spec, now, s);
    }

    method VAIn(net: Network, admit: (int, VC, int) -> bool, now: int, ghost s: Net)
      requires net.Shows(s) && net.Has(this) && s.now == now && Sized(T, s) && VASafe(T, id, s.rs[id].c)
      modifies net.repr
      ensures net.Shows(Upd(s, id, VAFrom(T, s, id, admit, 0).rs[id]))
    {
      StageVA(admit, now, s);
    }

    method RCIn(net: Network, route: VC -> Option<int>, ghost s: Net)
      requires net.Shows(s) && net.Has(this) && Sized(T, s) && RouteOk(T, id, route)
      modifies net.repr
      ensures net.Shows(Upd(s, id, RouteUpto(T, s, id, route, T.npc[id]).rs[id]))
    {
      StageRC(route, s);
    }

    method SimFront(net: Network, now: int, ghost s: Net)
      requires net.Shows(s) && net.Has(this) && s.now == now && FrontOk(T, s, id)
      modifies net.repr
      ensures net.Shows(Front(T, s, id))
    {
      ghost var s1 := IncAll(T, s, id);
      ghost var s2 := LTUpto(T, s1, id, T.npc[id]);
      ghost var s3 := STUpto(T, s2, id, T.npc[id]);
      IncIn(net, now, s);
      StageLT(net, now, s1);
      StageST(net, now, s2);
      AskIn(net, now, s3);
    }

    method SimMiddle(net: Network, route: VC -> Option<int>, admit: (int, VC, int) -> bool, now: int, ghost s: Net)
      returns (ghost sa: seq<VC>)
      requires net.Shows(s) && net.Has(this) && s.now == now && Inv(T, s) && RouteOk(T, id, route)
      modifies net.repr
      ensures GrantsOk(T, id, s.rs[id], now, false, sa)
      ensures net.Shows(Middle(T, s, id, Choice(route, admit, sa, [])))
    {
      sa := GrantIn(net, false, now, s);
      ghost var ch := Choice(route, admit, sa, []);
      MiddleFinds(T, s, id, ch);
      ghost var s1 := GrantUpto(T, s, id, sa, |sa|);
      if T.lookahead { RCIn(net, route, s1); }
      VAIn(net, admit, now, BeforeVA(T, s, id, ch));
    }

    method SimBack(net: Network, route: VC -> Option<int>, now: int, ghost s: Net, ghost ch: Choice)
      returns (ghost ssa: seq<VC>)
      requires net.Shows(s) && net.Has(this) && s.now == now && Inv(T, s) && RouteOk(T, id, route) && ch.route == route
      modifies net.repr
      ensures T.spec ==> GrantsOk(T, id, s.rs[id], now, true, ssa)
      ensures net.Shows(Back(T, s, id, ch.(ssa := ssa)))
    {
      ssa := [];
      if T.spec { ssa := GrantIn(net, true, now, s); }
      BackFinds(T, s, id, ch.(ssa := ssa));
      ghost var s1 := if T.spec then GrantUpto(T, s, id, ssa, |ssa|) else s;
      if !T.lookahead { RCIn(net, route, s1); }
      RanIn(net, now, BeforeRan(T, s, id, ch.(ssa := ssa)));
    }

    ghost method Ran(now: int, rs: RouterState)
      requires Is(rs)
      modifies this`clocks
      ensures Is(rs.(ran := now))
    {
      clocks := clocks.(ran := now);
    }

    ghost method RanIn(net: Network, now: int, s: Net)
      requires net.Shows(s) && net.Has(this)
      modifies net.repr
      ensures net.Shows(Upd(s, id, s.rs[id].(ran := now)))
    {
      Ran(now, s.rs[id]);
    }

    // One cycle of this router. It is the step the state machine takes, for some grants its arbiter may give.
    method RouterSim(net: Network, route: VC -> Option<int>, admit: (int, VC, int) -> bool, now: int, ghost s: Net)
      returns (ghost ch: Choice)
      requires net.Shows(s) && net.Has(this) && s.now == now && CanSim(T, s, id) && RouteOk(T, id, route)
      modifies net.repr
      ensures ch.route == route && ch.admit == admit && Sized(T, s) && ChoiceOk(T, s, id, ch)
      ensures net.Shows(Stages.RouterSim(T, s, id, ch))
    {
      SimFinds(T, s, id);
      SimFront(net, now, s);
      ghost var s1 := Front(T, s, id);
      ghost var sa := SimMiddle(net, route, admit, now, s1);
      ghost var ch1 := Choice(route, admit, sa, []);
      SimMid(T, s, id, ch1);
      ghost var ssa := SimBack(net, route, now, Middle(T, s1, id, ch1), ch1);
      ch := ch1.(ssa := ssa);
      SimIs(T, s, id, ch1, ch);
    }
  }

  // ---------- a network of routers ----------

  class Network {
    const T: Topo
    const routers: seq<Router>          // g_Router_vec
    ghost const repr: set<object>

    constructor (T: Topo, v1RR: bool, p1RR: bool)
      requires |T.npc| == |T.nint|
      ensures this.T == T && fresh(repr) && Shows(Init(T))
    {
      var rs, objs := Build(T, v1RR, p1RR);
      this.T, routers, repr := T, rs, objs;
    }

    static method Build(T: Topo, v1RR: bool, p1RR: bool) returns (rs: seq<Router>, ghost objs: set<object>)
      requires |T.npc| == |T.nint|
      ensures |rs| == |T.npc| && fresh(objs)
      ensures forall x {:trigger rs[x]} :: 0 <= x < |rs| ==> Part(rs[x], T, x, objs) && AtStart(rs[x], objs)
    {
      rs, objs := [], {};
      for i := 0 to |T.npc|
        invariant |rs| == i && fresh(objs)
        invariant forall x {:trigger rs[x]} :: 0 <= x < i ==> Part(rs[x], T, x, objs) && AtStart(rs[x], objs)
      {
        var x := new Router(T, i, v1RR, p1RR);
        rs := rs + [x];
        objs := objs + {x, x.flitQ, x.vcArb, x.swArb};
      }
    }

    // Router x, with its parts, is number i of a network.
    static ghost predicate Part(x: Router, T: Topo, i: int, objs: set<object>) {
      && x.T == T && x.id == x.flitQ.id == x.vcArb.id == x.swArb.id == i
      && x in objs && x.flitQ in objs && x.vcArb in objs && x.swArb in objs
    }

    static ghost predicate AtStart(x: Router, objs: set<object>)
      requires x in objs && x.flitQ in objs && x.vcArb in objs && x.swArb in objs
      reads objs
    {
      x.Is(NEW_ROUTER) && x.Fits()
    }

    // The routers, each at its own index and with parts of its own.
    ghost predicate World() {
      && |routers| == |T.npc| == |T.nint|
      && (forall i {:trigger routers[i]} :: 0 <= i < |routers| ==> Part(routers[i], T, i, repr))
    }

    ghost predicate Has(x: Router) { x.id < |routers| && routers[x.id] == x }

    // The routers are in state s of the state machine.
    ghost predicate Shows(s: Net)
      reads repr
    {
      && World() && |s.rs| == |routers|
      && (forall i {:trigger routers[i]} :: 0 <= i < |routers| ==> routers[i].Is(s.rs[i]) && routers[i].Fits())
    }

    // The routers of todo whose turn may come: those with flits inside, which have been woken up if they
    // slept, and those that are not asleep. A deposited credit wakes no router.
    function Awake(todo: set<int>, asleep: set<int>): set<int>
      reads repr
      requires World()
    {
      set i | i in todo && 0 <= i < |routers| && (routers[i].inside != 0 || i !in asleep)
    }

    // One cycle, in which each router has its turn in any order: with nothing to do it goes to sleep, unless
    // a wake-up it has not waited for yet lets it run all the same; otherwise it runs, once. Then time passes.
    method Cycle(route: seq<VC -> Option<int>>, admit: seq<(int, VC, int) -> bool>, now: int, asleep: set<int>,
                 ghost s0: Net)
      returns (asleep': set<int>, ghost s: Net)
      requires Shows(s0) && InCycle(T, s0, Below(|routers|), now) && |route| == |admit| == |routers|
      requires forall i {:trigger route[i]} :: 0 <= i < |routers| ==> RouteOk(T, i, route[i])
      modifies repr
      ensures Shows(s) && InCycle(T, s, Below(|routers|), now + 1)
    {
      s, asleep' := s0, asleep;
      var todo := Below(|routers|);
      BelowSize(|routers|);
      while Awake(todo, asleep') != {}
        invariant Shows(s) && InCycle(T, s, todo, now) && todo <= Below(|routers|)
        decreases todo, Below(|routers|) - asleep'
      {
        var r :| r in Awake(todo, asleep');
        var goesToSleep := false;
        if routers[r].inside == 0 && routers[r].deps == [] { goesToSleep := *; }
        if goesToSleep {
          asleep' := asleep' + {r};
        } else {
          s := StepRouter(r, route[r], admit[r], now, s, todo);
          todo, asleep' := todo - {r}, asleep' - {r};
        }
      }
      AllAsleep(s, todo, asleep', now);
      s := s.(now := now + 1);
    }

    lemma AllAsleep(s: Net, todo: set<int>, asleep: set<int>, now: int)
      requires Shows(s) && InCycle(T, s, todo, now) && Awake(todo, asleep) == {}
      ensures InCycle(T, s.(now := now + 1), Below(|routers|), now + 1)
    {
      BelowSize(|routers|);
      forall i | 0 <= i < |s.rs| && i in todo ensures s.rs[i].inside == 0 {
        assert routers[i].inside == s.rs[i].inside;
        assert i !in Awake(todo, asleep);
      }
      TickReachable(T, s, todo, Below(|routers|));
    }

    method StepRouter(r: int, route: VC -> Option<int>, admit: (int, VC, int) -> bool, now: int, ghost s0: Net,
                      ghost todo: set<int>)
      returns (ghost s: Net)
      requires Shows(s0) && InCycle(T, s0, todo, now) && 0 <= r < |routers| && r in todo && RouteOk(T, r, route)
      modifies repr
      ensures Shows(s) && InCycle(T, s, todo - {r}, now)
    {
      ReachableGood(T, s0);
      ghost var ch := routers[r].RouterSim(this, route, admit, now, s0);
      SimReachable(T, s0, r, ch, todo);
      s := Stages.RouterSim(T, s0, r, ch);
    }
  }
}

