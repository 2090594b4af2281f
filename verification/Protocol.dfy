// The whole network as one state, and one function per action a router or a network interface takes on it.

module Protocol {
  import opened Wiring
  import opened Flits

  datatype InState = I | R | V | S

  datatype InMod = InMod(st: InState, outPc: int, outVc: int)

  datatype Cred = Cred(num: int, rsv: int)

  datatype Wire = Wire(flit: Flit, vc: int, clk: int)

  datatype Credit = Credit(outPc: int, outVc: int, num: nat, clk: int)

  datatype SwReq = SwReq(outPc: int, outVc: int, clk: int)

  // Buffers, modules, crossbar and requests of one router. An entry that a map does not hold has the
  // value the constructor gives it; the getters below supply it. The last four fields are history no
  // stage reads: which input VC holds an output VC, which input port holds a crossbar output, and the
  // flits read from each input VC and sent on each output VC so far.
  datatype Ctl = Ctl(
    q: map<VC, seq<Flit>>,      // m_flitQ
    inm: map<VC, InMod>,        // m_in_mod_vec
    busy: set<VC>,              // m_out_mod_vec, the entries in state OUT_MOD_V
    waiting: map<int, int>,     // m_xbar.m_waiting_in_vc_vec
    taken: set<int>,            // m_xbar.m_outport_free_vec, the entries that are false
    reqQ: seq<(VC, int)>,       // VCArbFCFS::m_reqQ
    sw: map<VC, SwReq>,         // SwArb::m_swReq_vec, the entries with m_requesting set
    owner: map<VC, VC>,
    xown: map<int, int>,
    got: map<VC, seq<Flit>>,
    sent: map<VC, seq<Flit>>)

  // One router with the network interfaces attached to it. The last three fields are history: when
  // each crossbar output was granted, when stageLT last served each port, when the router last ran.
  datatype RouterState = RouterState(
    c: Ctl,
    cred: map<VC, Cred>,            // m_num_credit and m_num_credit_rsv of m_out_mod_vec
    link: map<int, seq<Wire>>,      // m_link_vec[].m_w_pipeline
    deps: seq<Credit>,              // m_credit_deposit_vec
    inside: int,                    // m_num_flits_inside
    pending: map<VC, seq<Flit>>,    // flits of the packet a network interface is writing into a VC
    xclk: map<int, int>,
    lt: map<int, int>,
    ran: int)

  datatype Net = Net(now: int, rs: seq<RouterState>)

  const NEW_CTL := Ctl(map[], map[], {}, map[], {}, [], map[], map[], map[], map[], map[])
  const NEW_ROUTER := RouterState(NEW_CTL, map[], map[], [], 0, map[], map[], map[], -1)

  function Init(T: Topo): Net { Net(0, seq(|T.npc|, _ => NEW_ROUTER)) }

  // ---------- getters ----------

  function Queue(q: map<VC, seq<Flit>>, k: VC): seq<Flit> { if k in q then q[k] else [] }
  function Q(c: Ctl, k: VC): seq<Flit> { Queue(c.q, k) }
  function In(c: Ctl, k: VC): InMod { if k in c.inm then c.inm[k] else InMod(I, INVALID_PC, INVALID_VC) }
  function Waiting(c: Ctl, pc: int): int { if pc in c.waiting then c.waiting[pc] else INVALID_VC }
  function Got(c: Ctl, k: VC): seq<Flit> { Queue(c.got, k) }
  function Sent(c: Ctl, o: VC): seq<Flit> { Queue(c.sent, o) }
  function Cr(T: Topo, cred: map<VC, Cred>, o: VC): Cred {
    if o in cred then cred[o] else Cred(T.depth - T.rsv, T.rsv)
  }
  function Link(link: map<int, seq<Wire>>, pc: int): seq<Wire> { if pc in link then link[pc] else [] }
  function Pending(rs: RouterState, k: VC): seq<Flit> { Queue(rs.pending, k) }
  function XClk(rs: RouterState, pc: int): int { if pc in rs.xclk then rs.xclk[pc] else -1 }
  function LastLT(rs: RouterState, pc: int): int { if pc in rs.lt then rs.lt[pc] else -1 }

  // ---------- credits and buffer space ----------

  function SumCredit(T: Topo, cred: map<VC, Cred>, op: int, n: nat): int {
    if n == 0 then 0 else SumCredit(T, cred, op, n - 1) + Cr(T, cred, VC(op, n - 1)).num
  }

  function RowQ(q: map<VC, seq<Flit>>, pc: int, n: nat): nat {
    if n == 0 then 0 else RowQ(q, pc, n - 1) + |Queue(q, VC(pc, n - 1))|
  }

  // Router::hasCredit(out_pc, out_vc, 1)
  predicate HasCredit(T: Topo, cred: map<VC, Cred>, o: VC) {
    if T.damq then SumCredit(T, cred, o.pc, T.nvc) >= 1 || Cr(T, cred, o).rsv >= 1
    else Cr(T, cred, o).num >= 1
  }

  // Router::decCredit(out_pc, out_vc, 1)
  function DecCredit(T: Topo, cred: map<VC, Cred>, o: VC): map<VC, Cred> {
    var m := Cr(T, cred, o);
    if T.damq && SumCredit(T, cred, o.pc, T.nvc) < 1 then cred[o := m.(rsv := m.rsv - 1)]
    else cred[o := m.(num := m.num - 1)]
  }

  // One round of the loop in Router::incCredit
  function AddCredit(T: Topo, cred: map<VC, Cred>, o: VC, num: nat): map<VC, Cred> {
    var m := Cr(T, cred, o);
    if T.damq && m.rsv < T.rsv then
      var back := if T.rsv - m.rsv < num then T.rsv - m.rsv else num;
      cred[o := Cred(m.num + num - back, m.rsv + back)]
    else cred[o := m.(num := m.num + num)]
  }

  // FlitQ::isFull
  predicate Full(T: Topo, q: map<VC, seq<Flit>>, k: VC) {
    if T.damq then RowQ(q, k.pc, T.nvc) >= T.nvc * T.depth else |Queue(q, k)| >= T.depth
  }

  predicate IsFull(T: Topo, c: Ctl, k: VC) { Full(T, c.q, k) }

  // ---------- what an action does to the control state of one router ----------

  // stageLT, downstream half, and NIInput::segmentPacket: a flit enters an input buffer.
  function Enqueue(c: Ctl, k: VC, f: Flit): Ctl { c.(q := c.q[k := Q(c, k) + [f]]) }

  // stageST on one input port: the flit the crossbar waits for leaves its buffer.
  function Traverse(c: Ctl, ip: int): Ctl
    requires Q(c, VC(ip, Waiting(c, ip))) != []
  {
    var k := VC(ip, Waiting(c, ip));
    var f := Q(c, k)[0];
    var o := VC(In(c, k).outPc, In(c, k).outVc);
    c.(
      q := c.q[k := Q(c, k)[1..]],
      inm := if f.IsTail() then c.inm[k := InMod(I, INVALID_PC, INVALID_VC)] else c.inm,
      busy := if f.IsTail() then c.busy - {o} else c.busy,
      waiting := c.waiting[ip := INVALID_VC],
      taken := c.taken - {o.pc},
      owner := if f.IsTail() then c.owner - {o} else c.owner,
      xown := c.xown - {o.pc},
      got := c.got[k := Got(c, k) + [f]],
      sent := c.sent[o := Sent(c, o) + [f]])
  }

  // stageSA: a middle or tail flit asks for the switch.
  function Request(c: Ctl, k: VC, now: int): Ctl {
    c.(sw := c.sw[k := SwReq(In(c, k).outPc, In(c, k).outVc, now)])
  }

  // stageSA and stageSSA: a granted request takes its crossbar ports.
  function Grant(c: Ctl, k: VC): Ctl
    requires k in c.sw && Q(c, k) != []
  {
    c.(
      sw := c.sw - {k},
      waiting := c.waiting[k.pc := k.vc],
      taken := c.taken + {c.sw[k].outPc},
      inm := if Q(c, k)[0].IsHead() then c.inm[k := In(c, k).(st := S)] else c.inm,
      xown := c.xown[c.sw[k].outPc := k.pc])
  }

  // VCArbFCFS::grant on its i-th request, with the switch request stageVA then makes for it.
  function Allocate(c: Ctl, i: nat, ov: int, now: int): Ctl
    requires i < |c.reqQ|
  {
    var (k, op) := c.reqQ[i];
    c.(
      inm := c.inm[k := InMod(V, op, ov)],
      busy := c.busy + {VC(op, ov)},
      reqQ := c.reqQ[..i] + c.reqQ[i + 1..],
      sw := c.sw[k := SwReq(op, ov, now)],
      owner := c.owner[VC(op, ov) := k])
  }

  // stageRC: the head flit in front gets an output port and joins the VC arbiter's queue.
  function Route(c: Ctl, k: VC, op: int): Ctl {
    c.(inm := c.inm[k := InMod(R, op, In(c, k).outVc)], reqQ := c.reqQ + [(k, op)])
  }

  // ---------- what an action does to one router ----------

  // incCredit: the oldest deposited credit becomes usable.
  function Inc(T: Topo, rs: RouterState): RouterState
    requires rs.deps != []
  {
    var d := rs.deps[0];
    rs.(deps := rs.deps[1..], cred := AddCredit(T, rs.cred, VC(d.outPc, d.outVc), d.num))
  }

  // depositCredit
  function Deposit(rs: RouterState, d: Credit): RouterState { rs.(deps := rs.deps + [d]) }

  // stageLT on one output port, upstream half: the oldest flit leaves the wire.
  function Unload(rs: RouterState, op: int): RouterState
    requires Link(rs.link, op) != []
  {
    rs.(link := rs.link[op := Link(rs.link, op)[1..]], inside := rs.inside - 1)
  }

  function StampLT(rs: RouterState, op: int, now: int): RouterState { rs.(lt := rs.lt[op := now]) }

  function Receive(rs: RouterState, k: VC, f: Flit): RouterState {
    rs.(c := Enqueue(rs.c, k, f), inside := rs.inside + 1)
  }

  // stageST on one input port: the flit goes onto a wire, or to the network interface of an ejection port.
  function Cross(T: Topo, r: int, rs: RouterState, ip: int, now: int): RouterState
    requires Q(rs.c, VC(ip, Waiting(rs.c, ip))) != []
  {
    var k := VC(ip, Waiting(rs.c, ip));
    var m := In(rs.c, k);
    rs.(
      c := Traverse(rs.c, ip),
      inside := if T.IsEject(r, m.outPc) then rs.inside - 1 else rs.inside,
      link := if T.IsEject(r, m.outPc) then rs.link
              else rs.link[m.outPc := Link(rs.link, m.outPc) + [Wire(Q(rs.c, k)[0], m.outVc, now)]])
  }

  // stageSA and stageSSA: a granted request takes its crossbar ports and a credit.
  function Take(T: Topo, r: int, rs: RouterState, k: VC, now: int): RouterState
    requires k in rs.c.sw && Q(rs.c, k) != []
  {
    var o := VC(rs.c.sw[k].outPc, rs.c.sw[k].outVc);
    rs.(c := Grant(rs.c, k),
        cred := if T.IsEject(r, o.pc) then rs.cred else DecCredit(T, rs.cred, o),
        xclk := rs.xclk[o.pc := now])
  }

  // NIInput::segmentPacket takes a free VC for a packet ...
  function Reserve(rs: RouterState, k: VC, pkt: nat, start: nat, n: nat): RouterState {
    rs.(pending := rs.pending[k := Cut(pkt, start, n)])
  }

  // ... and writes its flits one by one.
  function Inject(rs: RouterState, k: VC): RouterState
    requires Pending(rs, k) != []
  {
    Receive(rs, k, Pending(rs, k)[0]).(pending := rs.pending[k := Pending(rs, k)[1..]])
  }

  // ---------- what an action does to the network ----------

  function Upd(s: Net, r: int, x: RouterState): Net
    requires 0 <= r < |s.rs|
  {
    s.(rs := s.rs[r := x])
  }

  predicate Sized(T: Topo, s: Net) { |s.rs| == |T.npc| && |s.rs| == |T.nint| }

  // The wire of output port op has a flit that is due.
  predicate Due(T: Topo, s: Net, r: int, op: int)
    requires 0 <= r < |s.rs|
  {
    var l := Link(s.rs[r].link, op);
    var lat := T.Lat(Port(r, op));
    l != [] && T.Down(Port(r, op)).Some? && (lat > 1 ==> s.now - l[0].clk >= lat)
  }

  // stageLT on one output port.
  function LTPort(T: Topo, s: Net, r: int, op: int): Net
    requires Sized(T, s) && 0 <= r < |s.rs|
  {
    var s0 := Upd(s, r, StampLT(s.rs[r], op, s.now));
    if Due(T, s, r, op) then Move(T, s0, r, op) else s0
  }

  // The flit at the end of the wire goes into the downstream buffer.
  function Move(T: Topo, s: Net, r: int, op: int): Net
    requires Sized(T, s) && 0 <= r < |s.rs|
    requires Link(s.rs[r].link, op) != [] && T.Down(Port(r, op)).Some?
  {
    var w := Link(s.rs[r].link, op)[0];
    var p := T.Down(Port(r, op)).value;
    var s1 := Upd(s, r, Unload(s.rs[r], op));
    Upd(s1, p.router, Receive(s1.rs[p.router], VC(p.pc, w.vc), w.flit))
  }

  // stageST on one input port: the read also returns a credit to the upstream router.
  function STPort(T: Topo, s: Net, r: int, ip: int): Net
    requires Sized(T, s) && 0 <= r < |s.rs|
    requires Q(s.rs[r].c, VC(ip, Waiting(s.rs[r].c, ip))) != []
  {
    GiveBack(T, Upd(s, r, Cross(T, r, s.rs[r], ip, s.now)), VC(ip, Waiting(s.rs[r].c, ip)), T.Up(Port(r, ip)))
  }

  function GiveBack(T: Topo, s: Net, k: VC, up: Option<Port>): Net
    requires up.Some? ==> 0 <= up.value.router < |s.rs|
  {
    match up
    case None => s
    case Some(u) => Upd(s, u.router, Deposit(s.rs[u.router], Credit(u.pc, k.vc, 1, s.now + T.Lat(u))))
  }
}
