// Wires take one flit a cycle and give it back exactly their latency later; flit counts stay exact.

module LinkProofs {
  import opened Wiring
  import opened Flits
  import opened Protocol
  import opened Invariant
  import opened ControlProofs
  import opened StreamProofs

  // ---------- wires ----------

  lemma LinksFrame(T: Topo, s: Net, r: int, x: RouterState)
    requires Links(T, s) && 0 <= r < |s.rs|
    requires x.link == s.rs[r].link && x.lt == s.rs[r].lt && x.xclk == s.rs[r].xclk && x.c.xown == s.rs[r].c.xown
    ensures Links(T, Upd(s, r, x))
  {
    forall r', op | 0 <= r' < |s.rs| ensures LinkOk(T, r', Upd(s, r, x).rs[r'], s.now, op) {
      assert LinkOk(T, r', s.rs[r'], s.now, op);
    }
  }

  // The store clocks on a wire are distinct cycles, so there are at most as many flits as cycles.
  lemma ClocksSpread(l: seq<Wire>, t: int, now: int, lat: int, nvc: int, g: Option<int>, i: nat)
    requires WireOk(l, t, now, lat, nvc, g) && i < |l|
    ensures l[i].clk >= l[0].clk + i
  {
    if i > 0 { ClocksSpread(l, t, now, lat, nvc, g, i - 1); }
  }

  // stageST may push: the wire holds fewer flits than its latency.
  lemma WireHasRoom(T: Topo, r: int, rs: RouterState, now: int, op: int)
    requires T.Valid() && T.Down(Port(r, op)).Some?
    requires LinkOk(T, r, rs, now, op) && LastLT(rs, op) == now && op in rs.c.xown && XClk(rs, op) < now
    ensures |Link(rs.link, op)| < T.Lat(Port(r, op))
  {
    T.WiredAt(Port(r, op), T.Down(Port(r, op)).value);
    if Link(rs.link, op) != [] {
      ClocksSpread(Link(rs.link, op), now, now, T.Lat(Port(r, op)), T.nvc, GrantClk(rs, op), |Link(rs.link, op)| - 1);
    }
  }

  // stageLT takes a flit off the wire exactly when its latency has passed, whatever the latency.
  lemma ExactLatency(T: Topo, s: Net, r: int, op: int)
    requires T.Valid() && 0 <= r < |s.rs| && LinkOk(T, r, s.rs[r], s.now, op)
    requires LastLT(s.rs[r], op) < s.now && Link(s.rs[r].link, op) != []
    ensures Due(T, s, r, op) <==> s.now - Link(s.rs[r].link, op)[0].clk == T.Lat(Port(r, op))
  {
    T.WiredAt(Port(r, op), T.Down(Port(r, op)).value);
  }

  lemma ServeWire(l: seq<Wire>, t: int, now: int, lat: int, nvc: int, g: Option<int>)
    requires WireOk(l, t, now, lat, nvc, g) && t < now
    ensures l != [] ==> WireOk(l[1..], now, now, lat, nvc, g)
    ensures l != [] && now - l[0].clk < lat ==> WireOk(l, now, now, lat, nvc, g)
    ensures l == [] ==> WireOk(l, now, now, lat, nvc, g)
  {
    assert forall i :: 0 < i < |l| ==> l[0].clk < l[i].clk;
  }

  lemma LoadWire(l: seq<Wire>, now: int, lat: int, nvc: int, g: int, f: Flit, vc: int)
    requires WireOk(l, now, now, lat, nvc, Some(g)) && g < now && lat >= 1 && 0 <= vc < nvc
    ensures WireOk(l + [Wire(f, vc, now)], now, now, lat, nvc, None)
  {}

  lemma LTLinks(T: Topo, s: Net, r: int, op: int)
    requires T.Valid() && Sized(T, s) && Links(T, s) && 0 <= r < |s.rs| && LastLT(s.rs[r], op) < s.now
    ensures Links(T, LTPort(T, s, r, op))
  {
    var s' := LTPort(T, s, r, op);
    forall r', op' | 0 <= r' < |s.rs| ensures LinkOk(T, r', s'.rs[r'], s'.now, op') {
      LTWire(T, s, r, op, r', op');
    }
  }

  lemma LTWire(T: Topo, s: Net, r: int, op: int, r': int, op': int)
    requires T.Valid() && Sized(T, s) && Links(T, s) && 0 <= r < |s.rs| && LastLT(s.rs[r], op) < s.now
    requires 0 <= r' < |s.rs|
    ensures LinkOk(T, r', LTPort(T, s, r, op).rs[r'], s.now, op')
  {
    assert LinkOk(T, r', s.rs[r'], s.now, op');
    LTFields(T, s, r, op, r', op');
    if r' == r && op' == op {
      var l := Link(s.rs[r].link, op);
      if l != [] { ExactLatency(T, s, r, op); }
      ServeWire(l, LastLT(s.rs[r], op), s.now, T.Lat(Port(r, op)), T.nvc, GrantClk(s.rs[r], op));
    }
  }

  lemma LTFields(T: Topo, s: Net, r: int, op: int, r': int, op': int)
    requires Sized(T, s) && 0 <= r < |s.rs| && 0 <= r' < |s.rs|
    ensures var x := LTPort(T, s, r, op).rs[r'];
            var mine := r' == r && op' == op;
            && Link(x.link, op') ==
               (if mine && Due(T, s, r, op) then Link(s.rs[r].link, op)[1..] else Link(s.rs[r'].link, op'))
            && LastLT(x, op') == (if mine then s.now else LastLT(s.rs[r'], op'))
            && GrantClk(x, op') == GrantClk(s.rs[r'], op')
  {}

  lemma CrossLinks(T: Topo, s: Net, r: int, ip: int, o: VC, f: Flit)
    requires T.Valid() && Sized(T, s) && Links(T, s) && 0 <= r < |s.rs|
    requires Leaves(s.rs[r].c, ip, o, f) && o.pc in s.rs[r].c.xown && T.ValidVC(r, o) && T.Routable(r, o.pc)
    requires LastLT(s.rs[r], o.pc) == s.now && XClk(s.rs[r], o.pc) < s.now
    ensures Links(T, Upd(s, r, Cross(T, r, s.rs[r], ip, s.now)))
  {
    var x := Cross(T, r, s.rs[r], ip, s.now);
    var s' := Upd(s, r, x);
    forall r', op | 0 <= r' < |s.rs| ensures LinkOk(T, r', s'.rs[r'], s.now, op) {
      assert LinkOk(T, r', s.rs[r'], s.now, op);
      if r' == r {
        CrossFields(T, r, s.rs[r], ip, o, f, s.now, op);
        if op == o.pc && !T.IsEject(r, op) {
          T.WiredAt(Port(r, op), T.Down(Port(r, op)).value);
          LoadWire(Link(s.rs[r].link, op), s.now, T.Lat(Port(r, op)), T.nvc, XClk(s.rs[r], op), f, o.vc);
        }
      }
    }
  }

  lemma CrossFields(T: Topo, r: int, rs: RouterState, ip: int, o: VC, f: Flit, now: int, op: int)
    requires Leaves(rs.c, ip, o, f)
    ensures var x := Cross(T, r, rs, ip, now);
            && Link(x.link, op) ==
                 (if op == o.pc && !T.IsEject(r, op) then Link(rs.link, op) + [Wire(f, o.vc, now)]
                  else Link(rs.link, op))
            && LastLT(x, op) == LastLT(rs, op)
            && GrantClk(x, op) == (if op == o.pc then None else GrantClk(rs, op))
  {
    var x := Cross(T, r, rs, ip, now);
    assert x.c == Traverse(rs.c, ip) && x.lt == rs.lt && x.xclk == rs.xclk;
    TraverseXown(rs.c, ip, o, f);
  }

  lemma TraverseXown(c: Ctl, ip: int, o: VC, f: Flit)
    requires Leaves(c, ip, o, f)
    ensures Traverse(c, ip).xown == c.xown - {o.pc}
  {}

  lemma TakeLinks(T: Topo, s: Net, r: int, k: VC)
    requires Links(T, s) && 0 <= r < |s.rs| && k in s.rs[r].c.sw && Q(s.rs[r].c, k) != []
    ensures Links(T, Upd(s, r, Take(T, r, s.rs[r], k, s.now)))
  {
    var s' := Upd(s, r, Take(T, r, s.rs[r], k, s.now));
    forall r', op | 0 <= r' < |s.rs| ensures LinkOk(T, r', s'.rs[r'], s.now, op) {
      assert LinkOk(T, r', s.rs[r'], s.now, op);
    }
  }

  // ---------- flits inside ----------

  lemma RowQSet(q: map<VC, seq<Flit>>, k: VC, v: seq<Flit>, pc: int, n: nat)
    ensures RowQ(q[k := v], pc, n) ==
              RowQ(q, pc, n) + (if k.pc == pc && 0 <= k.vc < n then |v| - |Queue(q, k)| else 0)
  {
    if n > 0 { RowQSet(q, k, v, pc, n - 1); }
  }

  lemma SumQSet(q: map<VC, seq<Flit>>, k: VC, v: seq<Flit>, n: nat, nvc: nat)
    ensures SumQ(q[k := v], n, nvc) ==
              SumQ(q, n, nvc) + (if 0 <= k.pc < n && 0 <= k.vc < nvc then |v| - |Queue(q, k)| else 0)
  {
    if n > 0 {
      SumQSet(q, k, v, n - 1, nvc);
      RowQSet(q, k, v, n - 1, nvc);
    }
  }

  lemma SumLinkSet(link: map<int, seq<Wire>>, op: int, v: seq<Wire>, n: nat)
    ensures SumLink(link[op := v], n) == SumLink(link, n) + (if 0 <= op < n then |v| - |Link(link, op)| else 0)
  {
    if n > 0 { SumLinkSet(link, op, v, n - 1); }
  }

  lemma CountsFrame(T: Topo, s: Net, r: int, x: RouterState)
    requires Sized(T, s) && Counts(T, s) && 0 <= r < |s.rs| && InsideOk(T, r, x)
    ensures Counts(T, Upd(s, r, x))
  {
    forall r' | 0 <= r' < |s.rs| ensures InsideOk(T, r', Upd(s, r, x).rs[r']) { assert InsideOk(T, r', s.rs[r']); }
  }

  lemma ReceiveInside(T: Topo, r: int, rs: RouterState, k: VC, f: Flit)
    requires T.ValidVC(r, k) && InsideOk(T, r, rs)
    ensures InsideOk(T, r, Receive(rs, k, f))
  {
    SumQSet(rs.c.q, k, Q(rs.c, k) + [f], T.npc[r], T.nvc);
  }

  lemma UnloadInside(T: Topo, r: int, rs: RouterState, op: int)
    requires T.ValidRouter(r) && InsideOk(T, r, rs) && Link(rs.link, op) != [] && 0 <= op < T.npc[r]
    ensures InsideOk(T, r, Unload(rs, op))
  {
    SumLinkSet(rs.link, op, Link(rs.link, op)[1..], T.npc[r]);
  }

  lemma CrossInside(T: Topo, r: int, rs: RouterState, ip: int, o: VC, f: Flit, now: int)
    requires T.ValidVC(r, o) && T.ValidVC(r, VC(ip, Waiting(rs.c, ip)))
    requires InsideOk(T, r, rs) && Leaves(rs.c, ip, o, f)
    ensures InsideOk(T, r, Cross(T, r, rs, ip, now))
  {
    var k := VC(ip, Waiting(rs.c, ip));
    SumQSet(rs.c.q, k, Q(rs.c, k)[1..], T.npc[r], T.nvc);
    SumLinkSet(rs.link, o.pc, Link(rs.link, o.pc) + [Wire(f, o.vc, now)], T.npc[r]);
  }

  lemma SumLinkPositive(link: map<int, seq<Wire>>, op: int, n: nat)
    requires 0 <= op < n && Link(link, op) != []
    ensures SumLink(link, n) > 0
  {
    if op < n - 1 { SumLinkPositive(link, op, n - 1); }
  }

  // A router with a flit on a wire counts flits inside, so it does not go to sleep.
  lemma BusyWireKeepsRouterAwake(T: Topo, r: int, rs: RouterState, now: int, op: int)
    requires T.Valid() && T.ValidRouter(r)
    requires LinkOk(T, r, rs, now, op) && InsideOk(T, r, rs) && Link(rs.link, op) != []
    ensures rs.inside > 0 && T.InternalPort(Port(r, op))
  {
    T.WiredAt(Port(r, op), T.Down(Port(r, op)).value);
    SumLinkPositive(rs.link, op, T.npc[r]);
  }
}
