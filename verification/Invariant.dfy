// The invariant of the network. Control, streams, credits, wires and flit counts are kept apart, so that
// each action is checked against each of them on its own.

module Invariant {
  import opened Wiring
  import opened Flits
  import opened Protocol

  // ---------- control: one router ----------

  // The flits read from an input VC and those sent on its output VC stop at the same place.
  ghost predicate Same(a: seq<Flit>, b: seq<Flit>) {
    if Mid(a) then b != [] && b[|b| - 1] == a[|a| - 1] else !Mid(b)
  }

  // An input module agrees with its buffer, its switch request, the crossbar and the output VC it maps to.
  ghost predicate InOk(T: Topo, r: int, c: Ctl, k: VC) {
    var m := In(c, k);
    var o := VC(m.outPc, m.outVc);
    && (m.st.I? ==> m.outPc == INVALID_PC && m.outVc == INVALID_VC)
    && (m.st.R? ==> T.Routable(r, m.outPc) && m.outVc == INVALID_VC && Q(c, k) != [] && (k, m.outPc) in c.reqQ)
    && (m.st.V? || m.st.S? ==>
          && T.ValidVC(r, o) && T.Routable(r, m.outPc) && o in c.owner && c.owner[o] == k
          && Same(Got(c, k), Sent(c, o)))
    && (!m.st.S? ==> !Mid(Got(c, k)) && Waiting(c, k.pc) != k.vc)
    && (m.st.V? ==> k in c.sw)
    && (m.st.S? && Waiting(c, k.pc) == k.vc ==>
          Q(c, k) != [] && k !in c.sw && m.outPc in c.xown && c.xown[m.outPc] == k.pc)
    && (m.st.S? && Waiting(c, k.pc) != k.vc ==> Mid(Got(c, k)))
    && (k in c.sw ==>
          && (m.st.V? || m.st.S?) && Q(c, k) != []
          && c.sw[k].outPc == m.outPc && c.sw[k].outVc == m.outVc)
  }

  // An output VC is busy exactly when an input VC in state V or S maps to it.
  ghost predicate OutOk(T: Topo, r: int, c: Ctl, o: VC) {
    && Wormhole(Sent(c, o))
    && (o in c.busy <==> o in c.owner)
    && (if o in c.owner then
          var k := c.owner[o];
          && T.ValidVC(r, k) && (In(c, k).st.V? || In(c, k).st.S?)
          && In(c, k).outPc == o.pc && In(c, k).outVc == o.vc
        else !Mid(Sent(c, o)))
  }

  // A crossbar output is taken exactly when one input port waits to send to it.
  ghost predicate XOk(T: Topo, r: int, c: Ctl, op: int) {
    && (op in c.taken <==> op in c.xown)
    && (op in c.xown ==>
          var k := VC(c.xown[op], Waiting(c, c.xown[op]));
          T.ValidVC(r, k) && In(c, k).st.S? && In(c, k).outPc == op)
  }

  ghost predicate WaitOk(T: Topo, r: int, c: Ctl, ip: int) {
    Waiting(c, ip) != INVALID_VC ==>
      T.ValidVC(r, VC(ip, Waiting(c, ip))) && In(c, VC(ip, Waiting(c, ip))).st.S?
  }

  // The VC arbiter's queue holds each input VC in state R once, with the port the routing chose.
  ghost predicate ReqOk(T: Topo, r: int, c: Ctl) {
    && (forall i :: 0 <= i < |c.reqQ| ==>
          && T.ValidVC(r, c.reqQ[i].0) && In(c, c.reqQ[i].0).st.R?
          && In(c, c.reqQ[i].0).outPc == c.reqQ[i].1)
    && (forall i, j :: 0 <= i < j < |c.reqQ| ==> c.reqQ[i].0 != c.reqQ[j].0)
  }

  // What has arrived on an input VC.
  function Here(c: Ctl, k: VC): seq<Flit> { Got(c, k) + Q(c, k) }

  ghost predicate Control(T: Topo, r: int, c: Ctl)
    requires T.ValidRouter(r)
  {
    && (forall k {:trigger InOk(T, r, c, k)} :: T.ValidVC(r, k) ==> InOk(T, r, c, k))
    && (forall o {:trigger OutOk(T, r, c, o)} :: T.ValidVC(r, o) ==> OutOk(T, r, c, o))
    && (forall k {:trigger Here(c, k)} :: T.ValidVC(r, k) ==> Wormhole(Here(c, k)))
    && (forall op {:trigger XOk(T, r, c, op)} :: 0 <= op < T.npc[r] ==> XOk(T, r, c, op))
    && (forall ip {:trigger WaitOk(T, r, c, ip)} :: 0 <= ip < T.npc[r] ==> WaitOk(T, r, c, ip))
    && ReqOk(T, r, c)
  }

  // ---------- streams: an output VC, its wire and the input VC it feeds ----------

  // The flits on a wire that travel to virtual channel vc, oldest first.
  function OnLink(l: seq<Wire>, vc: int): seq<Flit> {
    if l == [] then [] else (if l[0].vc == vc then [l[0].flit] else []) + OnLink(l[1..], vc)
  }

  // What is still to come on an input VC: flits on the incoming wire, or of the packet being injected.
  function Rest(T: Topo, s: Net, r: int, k: VC): seq<Flit>
    requires Sized(T, s) && 0 <= r < |s.rs|
  {
    match T.Up(Port(r, k.pc))
    case Some(u) => OnLink(Link(s.rs[u.router].link, u.pc), k.vc)
    case None => Pending(s.rs[r], k)
  }

  function Arrivals(T: Topo, s: Net, r: int, k: VC): seq<Flit>
    requires Sized(T, s) && 0 <= r < |s.rs|
  {
    Here(s.rs[r].c, k) + Rest(T, s, r, k)
  }

  // A channel neither loses, repeats nor reorders flits, and an injected packet is completed.
  ghost predicate StreamOk(T: Topo, s: Net, r: int, k: VC)
    requires Sized(T, s) && 0 <= r < |s.rs|
  {
    && Wormhole(Arrivals(T, s, r, k))
    && (match T.Up(Port(r, k.pc))
        case Some(u) => Arrivals(T, s, r, k) == Sent(s.rs[u.router].c, VC(u.pc, k.vc))
        case None => !Mid(Arrivals(T, s, r, k)))
  }

  // ---------- credits ----------

  function DepSum(d: seq<Credit>, o: VC): nat {
    if d == [] then 0
    else (if d[0].outPc == o.pc && d[0].outVc == o.vc then d[0].num else 0) + DepSum(d[1..], o)
  }

  // 1 when a flit bound for output VC o waits in the crossbar.
  function InXbar(c: Ctl, o: VC): nat {
    if o.pc in c.xown && In(c, VC(c.xown[o.pc], Waiting(c, c.xown[o.pc]))).outVc == o.vc then 1 else 0
  }

  // The credits of output VC o that this router accounts for: usable ones, one taken by a flit in the
  // crossbar, those of flits on the wire, and those on their way back.
  function Balance(T: Topo, rs: RouterState, o: VC): int {
    Cr(T, rs.cred, o).num + Cr(T, rs.cred, o).rsv + InXbar(rs.c, o) +
    |OnLink(Link(rs.link, o.pc), o.vc)| + DepSum(rs.deps, o)
  }

  // Together with the downstream buffer they are the depth of that buffer.
  ghost predicate CreditOk(T: Topo, s: Net, r: int, o: VC)
    requires Sized(T, s) && 0 <= r < |s.rs|
  {
    var d := T.Down(Port(r, o.pc));
    d.Some? ==>
      && Balance(T, s.rs[r], o) + |Q(s.rs[d.value.router].c, VC(d.value.pc, o.vc))| == T.depth
      && 0 <= Cr(T, s.rs[r].cred, o).rsv <= T.rsv
      && (!T.damq ==> Cr(T, s.rs[r].cred, o).num >= 0 && Cr(T, s.rs[r].cred, o).rsv == T.rsv)
  }

  // Under DAMQ_P the shared counter of one VC may be negative; the sum over a port is not.
  ghost predicate SharedOk(T: Topo, r: int, rs: RouterState, op: int) {
    T.damq && T.Down(Port(r, op)).Some? ==> SumCredit(T, rs.cred, op, T.nvc) >= 0
  }

  ghost predicate DepsOk(T: Topo, r: int, rs: RouterState) {
    forall i :: 0 <= i < |rs.deps| ==> T.Down(Port(r, rs.deps[i].outPc)).Some? && 0 <= rs.deps[i].outVc < T.nvc
  }

  // ---------- wires ----------

  // At most one flit a cycle goes onto a wire, and each leaves it exactly lat cycles later; t is when
  // stageLT last served the wire, g when the crossbar output in front of it was granted, if it is taken.
  ghost predicate WireOk(l: seq<Wire>, t: int, now: int, lat: int, nvc: int, g: Option<int>) {
    && t <= now
    && (l != [] ==> t >= now - 1)
    && (forall i :: 0 <= i < |l| ==> 0 <= l[i].vc < nvc && t - lat < l[i].clk <= t)
    && (forall i, j :: 0 <= i < j < |l| ==> l[i].clk < l[j].clk)
    && (g.Some? ==> g.value <= now && forall i :: 0 <= i < |l| ==> l[i].clk <= g.value)
  }

  function GrantClk(rs: RouterState, op: int): Option<int> { if op in rs.c.xown then Some(XClk(rs, op)) else None }

  ghost predicate LinkOk(T: Topo, r: int, rs: RouterState, now: int, op: int) {
    && (Link(rs.link, op) != [] ==> T.Down(Port(r, op)).Some?)
    && WireOk(Link(rs.link, op), LastLT(rs, op), now, T.Lat(Port(r, op)), T.nvc, GrantClk(rs, op))
  }

  // ---------- flits inside ----------

  function SumQ(q: map<VC, seq<Flit>>, n: nat, nvc: nat): nat {
    if n == 0 then 0 else SumQ(q, n - 1, nvc) + RowQ(q, n - 1, nvc)
  }

  function SumLink(link: map<int, seq<Wire>>, n: nat): nat {
    if n == 0 then 0 else SumLink(link, n - 1) + |Link(link, n - 1)|
  }

  // m_num_flits_inside counts buffered flits and flits on outgoing wires.
  ghost predicate InsideOk(T: Topo, r: int, rs: RouterState)
    requires T.ValidRouter(r)
  {
    rs.inside == SumQ(rs.c.q, T.npc[r], T.nvc) + SumLink(rs.link, T.npc[r])
  }

  // ---------- all of it ----------

  ghost predicate Controls(T: Topo, s: Net)
    requires Sized(T, s)
  {
    forall r {:trigger Control(T, r, s.rs[r].c)} :: 0 <= r < |s.rs| ==> Control(T, r, s.rs[r].c)
  }

  ghost predicate Streams(T: Topo, s: Net)
    requires Sized(T, s)
  {
    forall r, k {:trigger StreamOk(T, s, r, k)} :: 0 <= r < |s.rs| && T.ValidVC(r, k) ==> StreamOk(T, s, r, k)
  }

  ghost predicate Credits(T: Topo, s: Net)
    requires Sized(T, s)
  {
    && (forall r, o {:trigger CreditOk(T, s, r, o)} :: 0 <= r < |s.rs| && T.ValidVC(r, o) ==> CreditOk(T, s, r, o))
    && (forall r, op {:trigger SharedOk(T, r, s.rs[r], op)} :: 0 <= r < |s.rs| ==> SharedOk(T, r, s.rs[r], op))
    && (forall r {:trigger DepsOk(T, r, s.rs[r])} :: 0 <= r < |s.rs| ==> DepsOk(T, r, s.rs[r]))
  }

  ghost predicate Links(T: Topo, s: Net) {
    forall r, op {:trigger LinkOk(T, r, s.rs[r], s.now, op)} :: 0 <= r < |s.rs| ==> LinkOk(T, r, s.rs[r], s.now, op)
  }

  ghost predicate Counts(T: Topo, s: Net)
    requires Sized(T, s)
  {
    forall r {:trigger InsideOk(T, r, s.rs[r])} :: 0 <= r < |s.rs| ==> InsideOk(T, r, s.rs[r])
  }

  ghost predicate Inv(T: Topo, s: Net) {
    T.Valid() && Sized(T, s) && Controls(T, s) && Streams(T, s) && Credits(T, s) && Links(T, s) && Counts(T, s)
  }
}
