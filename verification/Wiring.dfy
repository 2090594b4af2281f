// The values every part of the model shares: ports, virtual channels and the wiring between routers.

module Wiring {

  datatype Option<+T> = None | Some(value: T)

  const INVALID_PC := -1
  const INVALID_VC := -2

  // A physical channel of one router; as an output port and as an input port it is the same number.
  datatype Port = Port(router: int, pc: int)

  // A virtual channel of one router: input VCs and output VCs are both named this way.
  datatype VC = VC(pc: int, vc: int)

  // The static shape of a network. `next` is m_connNextRouter_vec and `prev` is m_connPrevRouter_vec;
  // a port that is missing from the map holds INVALID_ROUTER_ID in the program.
  datatype Topo = Topo(
    npc: seq<nat>,          // ports of each router
    nint: seq<nat>,         // internal ports of each router; the remaining ones inject and eject
    nvc: nat,               // router_num_vc
    depth: nat,             // router_inbuf_depth
    rsv: nat,               // router_num_rsv_credit
    damq: bool,             // ROUTER_BUFFER_DAMQ_P instead of ROUTER_BUFFER_SAMQ
    lookahead: bool,        // router_lookahead_RC
    spec: bool,             // router_spec_SA
    next: map<Port, Port>,
    prev: map<Port, Port>,
    lat: map<Port, nat>)    // m_delay_factor * link_latency of each connected output port
  {
    predicate ValidRouter(r: int) { 0 <= r < |npc| && r < |nint| }

    predicate ValidVC(r: int, k: VC) {
      ValidRouter(r) && 0 <= k.pc < npc[r] && 0 <= k.vc < nvc
    }

    predicate InternalPort(p: Port) {
      ValidRouter(p.router) && 0 <= p.pc < nint[p.router]
    }

    predicate IsEject(r: int, pc: int) {
      ValidRouter(r) && nint[r] <= pc
    }

    // What stageRC asserts of the port the routing function returns.
    predicate Routable(r: int, pc: int) {
      ValidRouter(r) && 0 <= pc < npc[r] && (IsEject(r, pc) || Down(Port(r, pc)).Some?)
    }

    // The input port an output port leads to, and the output port an input port is fed by.
    function Down(p: Port): Option<Port> {
      if p in next && ValidRouter(next[p].router) then Some(next[p]) else None
    }

    function Up(p: Port): Option<Port> {
      if p in prev && ValidRouter(prev[p].router) then Some(prev[p]) else None
    }

    // Wires are numbered from their upstream end.
    function Lat(p: Port): nat { if p in lat then lat[p] else 0 }

    // Upstream and downstream tables name each other, and only internal ports are wired.
    ghost predicate Wired() {
      && (forall p :: p in next ==> InternalPort(p) && InternalPort(next[p]) && next[p] in prev && prev[next[p]] == p)
      && (forall p :: p in prev ==> InternalPort(p) && InternalPort(prev[p]) && prev[p] in next && next[prev[p]] == p)
    }

    ghost predicate Valid() {
      && |npc| == |nint|
      && (forall r {:trigger nint[r]} :: 0 <= r < |npc| ==> nint[r] <= npc[r])
      && rsv <= depth
      && Wired()
      && (forall p {:trigger p in lat} :: p in next ==> p in lat && lat[p] >= 1)
    }

    lemma WiredAt(a: Port, b: Port)
      requires Valid()
      ensures Down(a) == Some(b) <==> Up(b) == Some(a)
      ensures Down(a) == Some(b) ==> InternalPort(a) && InternalPort(b) && a.pc < npc[a.router] && b.pc < npc[b.router]
      ensures Down(a) == Some(b) ==> Lat(a) >= 1
    {}
  }
}
